/** The incremental build (tools/trace_build.py): objects are kept between runs
    and compiled again only when something they were made from is newer. */
module TraceBuild {
  import opened Common

  // ------------------------------------------------------------------------
  // Files
  // ------------------------------------------------------------------------

  /** A source, a header of the project, a file in a generated-header directory, an object. */
  datatype Path = Source(name: string) | Header(name: string) | Generated(dir: string, name: string)
                | Object(tier: string, stem: string)

  const TABLE := "sfr_table.o"

  /** The one object that lies in the generated directory itself. */
  predicate IsObject(p: Path) { p.Object? || (p.Generated? && p.name == TABLE) }

  datatype File = File(content: string, mtime: nat)

  type Files = map<Path, File>

  datatype Job = Job(src: Path, obj: Path, flags: seq<string>, gen: string)

  /** What a compilation reads. */
  datatype Inputs = Inputs(source: string, flags: seq<string>, headers: map<Path, string>, generated: map<Path, string>)

  /** The compiler: an object, or a failure. */
  type Compiler = Inputs -> Option<string>

  predicate IsInput(p: Path, dir: string) { p.Generated? && p.dir == dir && !IsObject(p) }

  function HeadersOf(files: Files): map<Path, string> { map p | p in files && p.Header? :: files[p].content }

  function GeneratedOf(files: Files, dir: string): map<Path, string> {
    map p | p in files && IsInput(p, dir) :: files[p].content
  }

  /** What a compilation from scratch gives. */
  function Fresh(cc: Compiler, files: Files, job: Job): Option<string> {
    if job.src in files then
      cc(Inputs(files[job.src].content, job.flags, HeadersOf(files), GeneratedOf(files, job.gen)))
    else None
  }

  // ------------------------------------------------------------------------
  // Stale objects
  // ------------------------------------------------------------------------

  predicate HeaderNewer(files: Files, m: nat) { exists p :: p in files && p.Header? && files[p].mtime > m }

  /** The directory's epoch is that of all its files, the table object included. */
  predicate GeneratedNewer(files: Files, dir: string, m: nat) {
    exists p :: p in files && p.Generated? && p.dir == dir && files[p].mtime > m
  }

  predicate IsStale(files: Files, job: Job) {
    || job.obj !in files
    || job.src !in files
    || files[job.src].mtime > files[job.obj].mtime
    || HeaderNewer(files, files[job.obj].mtime)
    || GeneratedNewer(files, job.gen, files[job.obj].mtime)
  }

  // ------------------------------------------------------------------------
  // Plans
  // ------------------------------------------------------------------------

  datatype Plan = Plan(jobs: map<Path, Job>, links: seq<Path>)

  /** All plans' jobs; of two for one object, the first one stays. */
  function Merged(plans: seq<Plan>): map<Path, Job> {
    if plans == [] then map[] else plans[|plans| - 1].jobs + Merged(plans[..|plans| - 1])
  }

  predicate JobsHaveKeys(jobs: map<Path, Job>) { forall p :: p in jobs ==> jobs[p].obj == p && IsObject(p) }

  /** How each object is made, the same over the whole history: object paths
      determine the source, the flags and the header directory. */
  type Recipes = map<Path, Job>

  predicate GoodRecipes(recipes: Recipes) {
    && JobsHaveKeys(recipes)
    && (forall p :: p in recipes ==> !IsObject(recipes[p].src))
    && (forall p :: p in recipes && p.Generated? ==> recipes[p].gen == p.dir)
  }

  predicate Follows(plans: seq<Plan>, recipes: Recipes) {
    forall i, p :: 0 <= i < |plans| && p in plans[i].jobs ==> p in recipes && plans[i].jobs[p] == recipes[p]
  }

  predicate LinksPlanned(plans: seq<Plan>) {
    forall i, k :: 0 <= i < |plans| && 0 <= k < |plans[i].links| ==> plans[i].links[k] in plans[i].jobs
  }

  lemma {:induction false} MergedFollows(plans: seq<Plan>, recipes: Recipes)
    requires Follows(plans, recipes)
    ensures forall p :: p in Merged(plans) ==> p in recipes && Merged(plans)[p] == recipes[p]
    ensures forall i, p :: 0 <= i < |plans| && p in plans[i].jobs ==> p in Merged(plans)
  {
    if plans != [] {
      var n := |plans| - 1;
      assert forall i :: 0 <= i < n ==> plans[..n][i] == plans[i];
      MergedFollows(plans[..n], recipes);
    }
  }

  // ------------------------------------------------------------------------
  // The invariant
  // ------------------------------------------------------------------------

  /** Nothing a compilation reads is newer than the object. */
  ghost predicate InputsOlder(files: Files, job: Job) {
    && job.obj in files && job.src in files && files[job.src].mtime <= files[job.obj].mtime
    && !HeaderNewer(files, files[job.obj].mtime)
    && (forall p :: p in files && IsInput(p, job.gen) ==> files[p].mtime <= files[job.obj].mtime)
  }

  lemma NotStaleOlder(files: Files, job: Job)
    ensures !IsStale(files, job) ==> InputsOlder(files, job)
  {
  }

  /** Every object older than none of its inputs, so every one that would not be
      compiled again, is what a compilation from scratch gives. */
  ghost predicate UpToDate(cc: Compiler, files: Files, recipes: Recipes) {
    forall p :: p in recipes && InputsOlder(files, recipes[p]) ==>
      p in files && Fresh(cc, files, recipes[p]) == Some(files[p].content)
  }

  predicate Past(files: Files, now: nat) { forall p :: p in files ==> files[p].mtime < now }

  ghost predicate Inv(cc: Compiler, files: Files, now: nat, recipes: Recipes) {
    GoodRecipes(recipes) && Past(files, now) && UpToDate(cc, files, recipes)
  }

  ghost predicate SameInputs(a: Files, b: Files) {
    forall p :: !IsObject(p) ==> (p in a <==> p in b) && (p in a && p in b ==> a[p] == b[p])
  }

  lemma FreshSame(cc: Compiler, a: Files, b: Files, job: Job)
    requires SameInputs(a, b) && !IsObject(job.src)
    ensures Fresh(cc, a, job) == Fresh(cc, b, job)
  {
    assert HeadersOf(a) == HeadersOf(b);
    assert GeneratedOf(a, job.gen) == GeneratedOf(b, job.gen);
  }

  /** Two trees in which a job reads the same and has the same object. */
  ghost predicate SameForJob(a: Files, b: Files, job: Job) {
    forall p :: p == job.src || p == job.obj || p.Header? || IsInput(p, job.gen) ==>
      (p in a <==> p in b) && (p in a && p in b ==> a[p] == b[p])
  }

  lemma SameJob(cc: Compiler, a: Files, b: Files, job: Job)
    requires SameForJob(a, b, job)
    ensures InputsOlder(a, job) <==> InputsOlder(b, job)
    ensures Fresh(cc, a, job) == Fresh(cc, b, job)
  {
    assert HeadersOf(a) == HeadersOf(b);
    assert GeneratedOf(a, job.gen) == GeneratedOf(b, job.gen);
    if InputsOlder(a, job) { OlderSame(a, b, job); }
    if InputsOlder(b, job) { OlderSame(b, a, job); }
  }

  lemma OlderSame(a: Files, b: Files, job: Job)
    requires SameForJob(a, b, job) && InputsOlder(a, job)
    ensures InputsOlder(b, job)
  {
    var m := b[job.obj].mtime;
    forall p | p in b && (p.Header? || IsInput(p, job.gen)) ensures b[p].mtime <= m { assert p in a && a[p] == b[p]; }
  }

  /** A file edited or added gets a new time; everything made from it is stale then. */
  lemma EditKeepsInv(cc: Compiler, files: Files, now: nat, recipes: Recipes, q: Path, content: string)
    requires Inv(cc, files, now, recipes) && !IsObject(q)
    ensures Inv(cc, files[q := File(content, now)], now + 1, recipes)
  {
    var after := files[q := File(content, now)];
    forall p | p in recipes && InputsOlder(after, recipes[p])
      ensures p in after && Fresh(cc, after, recipes[p]) == Some(after[p].content)
    {
      var job := recipes[p];
      assert p != q && after[p].mtime < now && after[q].mtime == now;
      assert q != job.src && !q.Header? && !IsInput(q, job.gen);
      SameJob(cc, files, after, job);
    }
  }

  /** A file of the sources or an object, not a header or a file the compiler finds by itself. */
  predicate MayVanish(q: Path) { !q.Header? && (q.Generated? ==> IsObject(q)) }

  /** A source or an object is deleted: what was made from it, or was it, is stale then. */
  lemma DeletionKeepsInv(cc: Compiler, files: Files, now: nat, recipes: Recipes, q: Path)
    requires Inv(cc, files, now, recipes) && MayVanish(q)
    ensures Inv(cc, files - {q}, now, recipes)
  {
    var after := files - {q};
    forall p | p in recipes && InputsOlder(after, recipes[p])
      ensures p in after && Fresh(cc, after, recipes[p]) == Some(after[p].content)
    {
      assert q != p && q != recipes[p].src;
      SameJob(cc, files, after, recipes[p]);
    }
  }

  // ------------------------------------------------------------------------
  // A run
  // ------------------------------------------------------------------------

  function StaleJobs(files: Files, jobs: map<Path, Job>): set<Path> { set p | p in jobs && IsStale(files, jobs[p]) }

  /** The jobs in `done` have been compiled, whatever the order. */
  ghost predicate Compiled(
    cc: Compiler, files: Files, now: nat, jobs: map<Path, Job>, done: set<Path>,
    after: Files, later: nat, failed: set<Path>)
  {
    && SameInputs(files, after) && now <= later && Past(after, later)
    && failed <= done <= jobs.Keys
    && (forall p :: p in done ==> (p in failed <==> Fresh(cc, files, jobs[p]).None?))
    && (forall p :: p !in done || p in failed ==>
          (p in files <==> p in after) && (p in files && p in after ==> after[p] == files[p]))
    && (forall p :: p in done && p !in failed ==>
          p in after && after[p].mtime >= now && Fresh(cc, files, jobs[p]) == Some(after[p].content))
  }

  /** What a compile phase does: the stale jobs are compiled. */
  ghost predicate RunsTo(cc: Compiler, files: Files, now: nat, jobs: map<Path, Job>, after: Files, later: nat,
      failed: set<Path>) {
    Compiled(cc, files, now, jobs, StaleJobs(files, jobs), after, later, failed)
  }

  lemma OneMoreFailed(
    cc: Compiler, files: Files, now: nat, jobs: map<Path, Job>, done: set<Path>,
    after: Files, later: nat, failed: set<Path>, p: Path)
    requires Compiled(cc, files, now, jobs, done, after, later, failed)
    requires p in jobs && p !in done && !IsObject(jobs[p].src) && Fresh(cc, after, jobs[p]).None?
    ensures Compiled(cc, files, now, jobs, done + {p}, after, later, failed + {p})
  {
    FreshSame(cc, files, after, jobs[p]);
    hide Fresh, IsObject, SameInputs;
  }

  lemma OneMoreCompiled(
    cc: Compiler, files: Files, now: nat, jobs: map<Path, Job>, done: set<Path>,
    after: Files, later: nat, failed: set<Path>, p: Path)
    requires Compiled(cc, files, now, jobs, done, after, later, failed)
    requires p in jobs && p !in done && IsObject(p) && !IsObject(jobs[p].src) && Fresh(cc, after, jobs[p]).Some?
    ensures Compiled(cc, files, now, jobs, done + {p}, after[p := File(Fresh(cc, after, jobs[p]).value, later)],
        later + 1, failed)
  {
    FreshSame(cc, files, after, jobs[p]);
    hide Fresh, IsObject;
    assert SameInputs(files, after[p := File(Fresh(cc, after, jobs[p]).value, later)]);
    hide SameInputs;
  }

  lemma NothingCompiled(cc: Compiler, files: Files, now: nat, jobs: map<Path, Job>)
    requires Past(files, now)
    ensures Compiled(cc, files, now, jobs, {}, files, now, {})
  {
  }

  class Tree {
    const cc: Compiler
    var files: Files
    /** The time of the next write: no two writes have the same. */
    var now: nat

    constructor (compiler: Compiler)
      ensures cc == compiler && files == map[] && now == 1
    {
      cc, files, now := compiler, map[], 1;
    }

    method Write(p: Path, content: string)
      modifies this
      ensures files == old(files)[p := File(content, old(now))] && now == old(now) + 1
    {
      files := files[p := File(content, now)];
      now := now + 1;
    }

    /** Compile one job; a failure leaves the old object. */
    method CompileJob(job: Job) returns (ok: bool)
      modifies this
      ensures ok == Fresh(cc, old(files), job).Some?
      ensures ok ==>
                && files == old(files)[job.obj := File(Fresh(cc, old(files), job).value, old(now))]
                && now == old(now) + 1
      ensures !ok ==> files == old(files) && now == old(now)
    {
      var r := Fresh(cc, files, job);
      if r.Some? { Write(job.obj, r.value); }
      ok := r.Some?;
    }

    method Merge(plans: seq<Plan>) returns (jobs: map<Path, Job>)
      ensures jobs == Merged(plans)
    {
      jobs := map[];
      for i := 0 to |plans|
        invariant jobs == Merged(plans[..i])
      {
        assert plans[..i + 1][..i] == plans[..i];
        jobs := plans[i].jobs + jobs;
      }
      assert plans[..|plans|] == plans;
    }

    /** The compile phase: what is stale is decided first, then compiled in any order. */
    method Compile(jobs: map<Path, Job>) returns (failed: set<Path>)
      requires JobsHaveKeys(jobs) && (forall p :: p in jobs ==> !IsObject(jobs[p].src)) && Past(files, now)
      modifies this
      ensures RunsTo(cc, old(files), old(now), jobs, files, now, failed)
    {
      hide IsStale, Compiled, Past, IsObject, Fresh;
      var todo := StaleJobs(files, jobs);
      failed := {};
      ghost var stale := todo;
      NothingCompiled(cc, files, now, jobs);
      assert stale - todo == {};
      while todo != {}
        invariant todo <= stale && stale == StaleJobs(old(files), jobs)
        invariant Compiled(cc, old(files), old(now), jobs, stale - todo, files, now, failed)
        decreases todo
      {
        var p :| p in todo;
        if Fresh(cc, files, jobs[p]).Some? {
          OneMoreCompiled(cc, old(files), old(now), jobs, stale - todo, files, now, failed, p);
        } else {
          OneMoreFailed(cc, old(files), old(now), jobs, stale - todo, files, now, failed, p);
        }
        assert (stale - todo) + {p} == stale - (todo - {p});
        var ok := CompileJob(jobs[p]);
        if !ok { failed := failed + {p}; }
        todo := todo - {p};
      }
      assert stale - todo == stale;
    }
  }
}
