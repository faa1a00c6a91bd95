/**
  The context tree of a quickapp run (quickapp/compmake_context.py). Every
  context defines compmake jobs under its job prefix, keeps the table of the
  jobs it defined and the list of extra dependencies every new job gets, and
  counts the jobs defined in it and in all of its descendants. `child`
  derives the prefix, output directory and dependencies of a sub-context.

  compmake itself is an oracle here: `JobDB` records each job definition
  under the job id it is given.
*/
module CompmakeContexts {
  import opened Wrappers
  import opened PyStr
  import opened PyValues
  import opened ReportManagers

  /** The application object a context belongs to (`qapp`), known by name. */
  datatype QuickApp = QuickApp(name: string)

  /** What compmake is told about a job: the prefix in force, the command,
      the promises passed to it as arguments, and its `extra_dep`. */
  datatype JobDefinition = JobDefinition(
    prefix: Option<string>,
    command: string,
    inputs: set<Promise>,
    extraDep: seq<Promise>)

  /** compmake's job database, as far as a context uses it. */
  class JobDB {
    var defined: map<string, JobDefinition>

    constructor()
      ensures defined == map[]
    {
      defined := map[];
    }

    /** compmake's `comp`: define a job under a new id and return its promise. */
    method Define(jobId: string, def: JobDefinition) returns (p: Promise)
      requires jobId !in defined
      modifies this
      ensures p == Promise(jobId)
      ensures defined == old(defined)[jobId := def]
    {
      defined := defined[jobId := def];
      p := Promise(jobId);
    }
  }

  /** The resource manager a context hands out (resource_manager.py); only
      its identity matters here. */
  class ResourceManager {
    constructor() {}
  }

  /** `name.replace('-', '_')` */
  function FriendlyName(name: string): (f: string)
    ensures |f| == |name| && '-' !in f
    ensures forall k :: 0 <= k < |name| && name[k] != '-' ==> f[k] == name[k]
  {
    ReplaceChar(name, '-', '_')
  }

  /** The job prefix of a child named `name` of a context with prefix
      `parentPrefix`, for the `add_job_prefix` argument (`None` means the
      friendly name). */
  function ChildJobPrefix(parentPrefix: Option<string>, name: string, addJobPrefix: Option<string>): Option<string> {
    var add := if addJobPrefix.None? then FriendlyName(name) else addJobPrefix.value;
    if add != "" then
      if parentPrefix.None? then Some(add) else Some(parentPrefix.value + "-" + add)
    else parentPrefix
  }

  /** The output directory of a child named `name`, for the `add_outdir`
      argument (`None` means the friendly name). */
  function ChildOutputDir(parentDir: string, name: string, addOutdir: Option<string>): string {
    var add := if addOutdir.None? then FriendlyName(name) else addOutdir.value;
    if add != "" then PathJoin(parentDir, name) else parentDir
  }

  /** A child's prefix extends its parent's by `-` and the added part; an
      empty added part leaves the parent's prefix. */
  lemma ChildJobPrefixExtends(parentPrefix: Option<string>, name: string, addJobPrefix: Option<string>)
    ensures var add := if addJobPrefix.None? then FriendlyName(name) else addJobPrefix.value;
      var c := ChildJobPrefix(parentPrefix, name, addJobPrefix);
      (add == "" ==> c == parentPrefix) &&
      (add != "" ==> c.Some? && EndsWith(c.value, add) &&
                     (parentPrefix.Some? ==> StartsWith(c.value, parentPrefix.value + "-")) &&
                     (parentPrefix.None? ==> c.value == add))
  {
    var add := if addJobPrefix.None? then FriendlyName(name) else addJobPrefix.value;
    if add != "" && parentPrefix.Some? {
      var c := parentPrefix.value + "-" + add;
      assert c[..|parentPrefix.value + "-"|] == parentPrefix.value + "-";
      assert c[|c| - |add|..] == add;
    }
  }

  /** Children with different friendly names get different job prefixes. */
  lemma SiblingJobPrefixesDiffer(parentPrefix: Option<string>, name1: string, name2: string)
    requires FriendlyName(name1) != FriendlyName(name2)
    ensures ChildJobPrefix(parentPrefix, name1, None) != ChildJobPrefix(parentPrefix, name2, None)
  {
    var a, b := FriendlyName(name1), FriendlyName(name2);
    if parentPrefix.Some? && a != "" && b != "" {
      var q := parentPrefix.value + "-";
      assert (q + a)[|q|..] == a;
      assert (q + b)[|q|..] == b;
    } else if parentPrefix.Some? {
      // One name adds nothing and keeps the parent's prefix; the other
      // lengthens it.
      var q := parentPrefix.value;
      assert |q + "-" + a| > |q| || |q + "-" + b| > |q|;
    }
  }

  /** `a-b` and `a_b` name two children whose job prefixes coincide while
      their output directories differ. */
  lemma DashAndUnderscoreShareJobPrefix(parentPrefix: Option<string>, parentDir: string)
    ensures ChildJobPrefix(parentPrefix, "a-b", None) == ChildJobPrefix(parentPrefix, "a_b", None)
    ensures ChildOutputDir(parentDir, "a-b", None) != ChildOutputDir(parentDir, "a_b", None)
  {
    assert FriendlyName("a-b") == "a_b";
    assert FriendlyName("a_b") == "a_b";
    var d1, d2 := ChildOutputDir(parentDir, "a-b", None), ChildOutputDir(parentDir, "a_b", None);
    assert "a-b"[0] == 'a' && "a_b"[0] == 'a';
    assert d1[|d1| - 2] == '-' && d2[|d2| - 2] == '_';
  }

  /** Any non-empty `add_outdir` gives the same directory: the parent's joined
      with the raw name, not with the `add_outdir` value nor the friendly name. */
  lemma ChildOutputDirUsesRawName(parentDir: string, name: string, addOutdir: Option<string>)
    requires addOutdir != Some("")
    requires addOutdir.None? ==> name != ""
    ensures ChildOutputDir(parentDir, name, addOutdir) == PathJoin(parentDir, name)
    ensures ChildOutputDir(parentDir, name, Some("")) == parentDir
  {
    if addOutdir.None? {
      assert |FriendlyName(name)| == |name|;
    }
  }

  /** Two levels of children named `a` then `m` under a root without a
      prefix get the job prefix `a-m`. */
  lemma GrandchildJobPrefix()
    ensures ChildJobPrefix(ChildJobPrefix(None, "a", None), "m", None) == Some("a-m")
  {
    assert FriendlyName("a") == "a";
    assert FriendlyName("m") == "m";
    assert "a" + "-" + "m" == "a-m";
  }

  /** `c` lies below `context` and shares its application, report manager
      and resource manager, as every context made by `child` with the
      default arguments does. */
  ghost predicate Inherits(c: CompmakeContext, context: CompmakeContext) {
    c.Valid() && context in c.ancestors &&
    c.qapp == context.qapp && c.reportManager == context.reportManager &&
    c.resourceManager == context.resourceManager
  }

  class CompmakeContext {
    const qapp: QuickApp
    const parent: CompmakeContext?
    const jobPrefix: Option<string>
    const reportManager: ReportManager
    const resourceManager: ResourceManager
    const outputDir: string
    var nCompInvocations: nat
    var extraDep: seq<Promise>
    /** job id -> promise */
    var jobs: map<string, Promise>

    /** The contexts above this one, and the length of the parent chain. */
    ghost const ancestors: set<CompmakeContext>
    ghost const depth: nat

    /** The parent chain is finite and ends at a root context. */
    ghost predicate Valid()
      decreases depth
    {
      (forall a :: a in ancestors ==> a.depth < depth) &&
      if parent == null then ancestors == {} && depth == 0
      else ancestors == {parent} + parent.ancestors && parent.depth < depth && parent.Valid()
    }

    /** `CompmakeContext(qapp, parent, job_prefix, report_manager, output_dir,
        extra_dep, resource_manager)`; without a resource manager a new one
        is made. */
    constructor(qapp: QuickApp, parent: CompmakeContext?, jobPrefix: Option<string>, reportManager: ReportManager,
                outputDir: string, extraDep: seq<Promise>, resourceManager: ResourceManager?)
      requires parent != null ==> parent.Valid()
      ensures Valid()
      ensures this.qapp == qapp && this.parent == parent && this.jobPrefix == jobPrefix
      ensures this.reportManager == reportManager && this.outputDir == outputDir
      ensures resourceManager != null ==> this.resourceManager == resourceManager
      ensures resourceManager == null ==> fresh(this.resourceManager)
      ensures nCompInvocations == 0 && this.extraDep == extraDep && jobs == map[]
      ensures JobsNamed()
    {
      this.qapp := qapp;
      this.parent := parent;
      this.jobPrefix := jobPrefix;
      this.reportManager := reportManager;
      if resourceManager == null {
        this.resourceManager := new ResourceManager();
      } else {
        this.resourceManager := resourceManager;
      }
      this.outputDir := outputDir;
      nCompInvocations := 0;
      this.extraDep := extraDep;
      jobs := map[];
      ancestors := if parent == null then {} else {parent} + parent.ancestors;
      depth := if parent == null then 0 else parent.depth + 1;
    }

    /** The contexts above an ancestor are above this context too. */
    lemma AncestorsTransitive(a: CompmakeContext)
      requires Valid() && a in ancestors
      ensures a.Valid() && a.ancestors <= ancestors
      decreases depth
    {
      if a != parent {
        parent.AncestorsTransitive(a);
      }
    }

    /** Every promise in the job table is filed under its own job id, as
        `comp` records it. */
    predicate JobsNamed()
      reads this
    {
      forall id :: id in jobs ==> jobs[id] == Promise(id)
    }

    /** `all_jobs()`: the promises of the job table. Under `JobsNamed()` these
        are exactly the promises of the recorded job ids. */
    function AllJobs(): (s: set<Promise>)
      reads this
      ensures forall id :: id in jobs ==> jobs[id] in s
      ensures forall p :: p in s ==> exists id :: id in jobs && jobs[id] == p
      ensures JobsNamed() ==> forall p :: p in s <==> p.jobId in jobs
    {
      jobs.Values
    }

    /** `all_jobs_dict()`: a copy of the job table. */
    function AllJobsDict(): (d: map<string, Promise>)
      reads this
      ensures forall id :: id in d <==> id in jobs
      ensures forall id :: id in d ==> d[id] == jobs[id]
      ensures d.Values == AllJobs()
    {
      jobs
    }

    /** `count_comp_invocations()`: one more job in this context and in every
        context above it. */
    method CountCompInvocations()
      requires Valid()
      modifies this`nCompInvocations, ancestors`nCompInvocations
      ensures nCompInvocations == old(nCompInvocations) + 1
      ensures forall a :: a in ancestors ==> a.nCompInvocations == old(a.nCompInvocations) + 1
      decreases depth
    {
      nCompInvocations := nCompInvocations + 1;
      if parent != null {
        parent.CountCompInvocations();
      }
    }

    /** `comp(f, *args, **kwargs)`: define a job (under `jobId`, the id
        compmake gives it) with this context's dependencies followed by the
        call's own, and record its promise. */
    method Comp(db: JobDB, command: string, inputs: set<Promise>, callExtraDep: seq<Promise>, jobId: string)
      returns (p: Promise)
      requires Valid() && jobId !in db.defined
      modifies this`nCompInvocations, ancestors`nCompInvocations, this`jobs, db
      ensures p == Promise(jobId)
      ensures db.defined == old(db.defined)[jobId := JobDefinition(jobPrefix, command, inputs, extraDep + callExtraDep)]
      ensures jobs == old(jobs)[jobId := p]
      ensures old(JobsNamed()) ==> JobsNamed()
      ensures nCompInvocations == old(nCompInvocations) + 1
      ensures forall a :: a in ancestors ==> a.nCompInvocations == old(a.nCompInvocations) + 1
    {
      CountCompInvocations();
      var deps := extraDep + callExtraDep;
      p := db.Define(jobId, JobDefinition(jobPrefix, command, inputs, deps));
      jobs := jobs[p.jobId := p];
    }

    /** `checkpoint(job_name)`: a job named `job_name` that takes every job
        defined so far, and that every later job of this context depends on. */
    method Checkpoint(db: JobDB, jobName: string) returns (p: Promise)
      requires Valid() && jobName !in db.defined
      modifies this`nCompInvocations, ancestors`nCompInvocations, this`jobs, this`extraDep, db
      ensures p == Promise(jobName)
      ensures db.defined == old(db.defined)[jobName := JobDefinition(jobPrefix, "checkpoint", old(AllJobs()), old(extraDep))]
      ensures jobs == old(jobs)[jobName := p]
      ensures old(JobsNamed()) ==> JobsNamed()
      ensures extraDep == old(extraDep) + [p]
      ensures nCompInvocations == old(nCompInvocations) + 1
      ensures forall a :: a in ancestors ==> a.nCompInvocations == old(a.nCompInvocations) + 1
    {
      assert extraDep + [] == extraDep;
      p := Comp(db, "checkpoint", AllJobs(), [], jobName);
      extraDep := extraDep + [p];
    }

    /** `needs(rtype, **params)` with the resource's promise already obtained
        from the resource manager: every later job depends on it. */
    method Needs(res: Promise)
      modifies this`extraDep
      ensures extraDep == old(extraDep) + [res]
    {
      extraDep := extraDep + [res];
    }

    /** `child(name, qapp, add_job_prefix, add_outdir, extra_dep,
        separate_resource_manager)`: a new context below this one. This
        context is not changed; in particular the child's dependency list is
        a new list. */
    method Child(name: string, qapp: Option<QuickApp>, addJobPrefix: Option<string>, addOutdir: Option<string>,
                 extraDep: seq<Promise>, separateResourceManager: bool)
      returns (c: CompmakeContext)
      requires Valid()
      ensures fresh(c) && c.Valid() && c.parent == this && c.ancestors == {this} + ancestors
      ensures c.qapp == if qapp.Some? then qapp.value else this.qapp
      ensures c.jobPrefix == ChildJobPrefix(jobPrefix, name, addJobPrefix)
      ensures c.outputDir == ChildOutputDir(outputDir, name, addOutdir)
      ensures c.reportManager == reportManager
      ensures separateResourceManager ==> fresh(c.resourceManager)
      ensures !separateResourceManager ==> c.resourceManager == resourceManager
      ensures c.extraDep == this.extraDep + extraDep
      ensures c.nCompInvocations == 0 && c.jobs == map[] && c.JobsNamed()
    {
      var app := if qapp.None? then this.qapp else qapp.value;
      var friendly := FriendlyName(name);
      var addPrefix := if addJobPrefix.None? then friendly else addJobPrefix.value;
      var addDir := if addOutdir.None? then friendly else addOutdir.value;
      var prefix: Option<string>;
      if addPrefix != "" {
        prefix := if jobPrefix.None? then Some(addPrefix) else Some(jobPrefix.value + "-" + addPrefix);
      } else {
        prefix := jobPrefix;
      }
      var dir := if addDir != "" then PathJoin(outputDir, name) else outputDir;
      var rm: ResourceManager? := if separateResourceManager then null else resourceManager;
      c := new CompmakeContext(app, this, prefix, reportManager, dir, this.extraDep + extraDep, rm);
    }
  }

  /** What `checkpoint` promises: the checkpoint job takes every job defined
      before it, and every job the context defines afterwards depends on it. */
  method CheckpointOrdersJobs(ctx: CompmakeContext, db: JobDB, jobName: string, command: string,
                              inputs: set<Promise>, jobId: string)
    returns (cp: Promise, p: Promise)
    requires ctx.Valid() && jobName !in db.defined && jobId !in db.defined && jobName != jobId
    modifies ctx, ctx.ancestors, db
    ensures jobName in db.defined && db.defined[jobName].inputs == old(ctx.AllJobs())
    ensures jobId in db.defined && cp in db.defined[jobId].extraDep
    ensures cp in ctx.AllJobs() && p in ctx.AllJobs()
  {
    cp := ctx.Checkpoint(db, jobName);
    p := ctx.Comp(db, command, inputs, [], jobId);
    assert ctx.jobs[jobName] == cp;
    assert db.defined[jobId].extraDep == ctx.extraDep + [];
    assert ctx.extraDep[|ctx.extraDep| - 1] == cp;
  }
}
