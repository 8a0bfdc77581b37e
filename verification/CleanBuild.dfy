/** Incremental equals clean (tools/trace_build.py): over any history of edits,
    deletions of sources and objects, and runs, what a run links is what a
    compilation from scratch gives; and which other changes to the tree are missed. */
module CleanBuild {
  import opened Common
  import opened Text
  import opened TraceBuild

  // ------------------------------------------------------------------------
  // Histories
  // ------------------------------------------------------------------------

  datatype World = World(files: Files, now: nat)

  const EMPTY := World(map[], 1)

  ghost predicate Edited(a: World, b: World) {
    exists q, content :: !IsObject(q) && b == World(a.files[q := File(content, a.now)], a.now + 1)
  }

  ghost predicate Deleted(a: World, b: World) { exists q :: MayVanish(q) && b == World(a.files - {q}, a.now) }

  /** One run on these plans; the objects in `failed` could not be compiled. */
  ghost predicate Ran(cc: Compiler, plans: seq<Plan>, a: World, b: World, failed: set<Path>) {
    RunsTo(cc, a.files, a.now, Merged(plans), b.files, b.now, failed)
  }

  ghost predicate RanSome(cc: Compiler, recipes: Recipes, a: World, b: World) {
    exists plans, failed :: Follows(plans, recipes) && Ran(cc, plans, a, b, failed)
  }

  ghost predicate Moved(cc: Compiler, recipes: Recipes, a: World, b: World) {
    Edited(a, b) || Deleted(a, b) || RanSome(cc, recipes, a, b)
  }

  /** Edits, additions, deletions and runs in any order, the runs successful or not. */
  ghost predicate History(cc: Compiler, recipes: Recipes, ws: seq<World>) {
    ws != [] && ws[0] == EMPTY && forall i :: 0 < i < |ws| ==> Moved(cc, recipes, ws[i - 1], ws[i])
  }

  lemma RunKeepsInv(cc: Compiler, a: World, b: World, plans: seq<Plan>, failed: set<Path>, recipes: Recipes)
    requires Inv(cc, a.files, a.now, recipes) && Follows(plans, recipes) && Ran(cc, plans, a, b, failed)
    ensures Inv(cc, b.files, b.now, recipes)
  {
    MergedFollows(plans, recipes);
    forall p | p in recipes && InputsOlder(b.files, recipes[p])
      ensures p in b.files && Fresh(cc, b.files, recipes[p]) == Some(b.files[p].content)
    {
      RunKeepsFresh(cc, a, b, Merged(plans), failed, recipes, p);
    }
  }

  lemma RunKeepsFresh(cc: Compiler, a: World, b: World, jobs: map<Path, Job>, failed: set<Path>,
                      recipes: Recipes, p: Path)
    requires Inv(cc, a.files, a.now, recipes) && RunsTo(cc, a.files, a.now, jobs, b.files, b.now, failed)
    requires forall q :: q in jobs ==> q in recipes && jobs[q] == recipes[q]
    requires p in recipes && p in b.files && InputsOlder(b.files, recipes[p])
    ensures Fresh(cc, b.files, recipes[p]) == Some(b.files[p].content)
  {
    var job := recipes[p];
    FreshSame(cc, a.files, b.files, job);
    if !(p in StaleJobs(a.files, jobs) && p !in failed) {
      SameJob(cc, a.files, b.files, job);
    }
  }

  lemma StepKeepsInv(cc: Compiler, recipes: Recipes, a: World, b: World)
    requires Inv(cc, a.files, a.now, recipes) && Moved(cc, recipes, a, b)
    ensures Inv(cc, b.files, b.now, recipes)
  {
    hide Inv, Ran;
    if Edited(a, b) {
      var q, content :| !IsObject(q) && b == World(a.files[q := File(content, a.now)], a.now + 1);
      EditKeepsInv(cc, a.files, a.now, recipes, q, content);
    } else if Deleted(a, b) {
      var q :| MayVanish(q) && b == World(a.files - {q}, a.now);
      DeletionKeepsInv(cc, a.files, a.now, recipes, q);
    } else {
      var plans, failed :| Follows(plans, recipes) && Ran(cc, plans, a, b, failed);
      RunKeepsInv(cc, a, b, plans, failed, recipes);
    }
  }

  lemma {:induction false} HistoryInv(cc: Compiler, recipes: Recipes, ws: seq<World>)
    requires GoodRecipes(recipes) && History(cc, recipes, ws)
    ensures var w := ws[|ws| - 1]; Inv(cc, w.files, w.now, recipes)
  {
    var n := |ws| - 1;
    if n > 0 {
      hide Moved, IsStale, Fresh, InputsOlder;
      HistoryInv(cc, recipes, ws[..n]);
      assert ws[..n][n - 1] == ws[n - 1];
      StepKeepsInv(cc, recipes, ws[n - 1], ws[n]);
    }
  }

  /** After any history, every object of a run that did not fail is what a
      compilation from scratch of the files as they are gives. */
  lemma RunIsClean(cc: Compiler, recipes: Recipes, ws: seq<World>, plans: seq<Plan>, b: World, failed: set<Path>)
    requires GoodRecipes(recipes) && History(cc, recipes, ws) && Follows(plans, recipes) && LinksPlanned(plans)
    requires Ran(cc, plans, ws[|ws| - 1], b, failed)
    ensures forall i, k :: 0 <= i < |plans| && 0 <= k < |plans[i].links| && plans[i].links[k] !in failed ==>
              && plans[i].links[k] in b.files
              && Fresh(cc, b.files, recipes[plans[i].links[k]]) == Some(b.files[plans[i].links[k]].content)
    ensures forall p :: p in failed ==> p in recipes && Fresh(cc, b.files, recipes[p]).None?
  {
    var a := ws[|ws| - 1];
    HistoryInv(cc, recipes, ws);
    MergedFollows(plans, recipes);
    hide History;
    forall i, k | 0 <= i < |plans| && 0 <= k < |plans[i].links| && plans[i].links[k] !in failed
      ensures plans[i].links[k] in b.files
      ensures Fresh(cc, b.files, recipes[plans[i].links[k]]) == Some(b.files[plans[i].links[k]].content)
    {
      ObjectIsFresh(cc, a, b, Merged(plans), failed, recipes, plans[i].links[k]);
    }
    forall p | p in failed ensures p in recipes && Fresh(cc, b.files, recipes[p]).None? {
      FreshSame(cc, a.files, b.files, recipes[p]);
    }
  }

  lemma ObjectIsFresh(cc: Compiler, a: World, b: World, jobs: map<Path, Job>, failed: set<Path>,
                      recipes: Recipes, p: Path)
    requires Inv(cc, a.files, a.now, recipes) && RunsTo(cc, a.files, a.now, jobs, b.files, b.now, failed)
    requires forall q :: q in jobs ==> q in recipes && jobs[q] == recipes[q]
    requires p in jobs && p !in failed
    ensures p in b.files && Fresh(cc, b.files, recipes[p]) == Some(b.files[p].content)
  {
    FreshSame(cc, a.files, b.files, recipes[p]);
    NotStaleOlder(a.files, recipes[p]);
    hide Fresh, IsStale;
  }

  // ------------------------------------------------------------------------
  // Runs with nothing edited in between
  // ------------------------------------------------------------------------

  predicate TableNewer(files: Files, job: Job) {
    var table := Generated(job.gen, TABLE);
    table in files && job.obj in files && files[table].mtime > files[job.obj].mtime
  }

  lemma StaleIffTable(files: Files, job: Job)
    requires InputsOlder(files, job)
    ensures IsStale(files, job) <==> TableNewer(files, job)
  {
    var table := Generated(job.gen, TABLE);
    if TableNewer(files, job) { assert table.dir == job.gen; }
    if GeneratedNewer(files, job.gen, files[job.obj].mtime) {
      var p :| p in files && p.Generated? && p.dir == job.gen && files[p].mtime > files[job.obj].mtime;
      assert p == table;
    }
  }

  lemma InputsOlderAfter(cc: Compiler, a: World, b: World, jobs: map<Path, Job>, p: Path)
    requires Past(a.files, a.now) && RunsTo(cc, a.files, a.now, jobs, b.files, b.now, {})
    requires p in jobs && jobs[p].obj == p && !IsObject(jobs[p].src)
    ensures InputsOlder(b.files, jobs[p])
  {
    var job := jobs[p];
    if p in StaleJobs(a.files, jobs) {
      assert Fresh(cc, a.files, job).Some?;
      assert b.files[p].mtime >= a.now;
      assert !HeaderNewer(b.files, b.files[p].mtime);
    } else {
      assert b.files[p] == a.files[p];
      assert !HeaderNewer(a.files, a.files[p].mtime);
      assert !HeaderNewer(b.files, b.files[p].mtime);
    }
  }

  /** Straight after a run without failures only the table object makes others stale. */
  lemma SecondRunCompiles(cc: Compiler, plans: seq<Plan>, recipes: Recipes, a: World, b: World)
    requires GoodRecipes(recipes) && Past(a.files, a.now) && Follows(plans, recipes) && Ran(cc, plans, a, b, {})
    ensures forall p :: p in Merged(plans) ==>
              p in recipes && (p in StaleJobs(b.files, Merged(plans)) <==> TableNewer(b.files, recipes[p]))
  {
    hide IsStale, TableNewer, Merged, RunsTo, IsObject, Past;
    MergedFollows(plans, recipes);
    forall p | p in Merged(plans)
      ensures p in recipes && (p in StaleJobs(b.files, Merged(plans)) <==> TableNewer(b.files, recipes[p]))
    {
      StaleAfterRun(cc, a, b, Merged(plans), p);
    }
  }

  lemma StaleAfterRun(cc: Compiler, a: World, b: World, jobs: map<Path, Job>, p: Path)
    requires Past(a.files, a.now) && RunsTo(cc, a.files, a.now, jobs, b.files, b.now, {})
    requires p in jobs && jobs[p].obj == p && !IsObject(jobs[p].src)
    ensures IsStale(b.files, jobs[p]) <==> TableNewer(b.files, jobs[p])
  {
    hide RunsTo, IsStale, TableNewer, InputsOlder;
    InputsOlderAfter(cc, a, b, jobs, p);
    StaleIffTable(b.files, jobs[p]);
  }

  lemma SecondRunSucceeds(
    cc: Compiler, plans: seq<Plan>, recipes: Recipes, a: World, b: World, c: World, failed: set<Path>)
    requires Inv(cc, a.files, a.now, recipes) && Follows(plans, recipes) && Ran(cc, plans, a, b, {})
    requires Ran(cc, plans, b, c, failed)
    ensures failed == {}
  {
    var jobs := Merged(plans);
    MergedFollows(plans, recipes);
    hide Merged, Inv, Follows;
    forall p | p in failed ensures false {
      assert p in jobs;
      ObjectIsFresh(cc, a, b, jobs, {}, recipes, p);
    }
  }

  /** A run without failures, repeated with nothing edited: it succeeds, and a third one compiles nothing. */
  lemma ThirdRunCompilesNothing(
    cc: Compiler, plans: seq<Plan>, recipes: Recipes, a: World, b: World, c: World, failed: set<Path>)
    requires Inv(cc, a.files, a.now, recipes) && Follows(plans, recipes) && Ran(cc, plans, a, b, {})
    requires Ran(cc, plans, b, c, failed)
    ensures failed == {} && StaleJobs(c.files, Merged(plans)) == {}
  {
    var jobs := Merged(plans);
    SecondRunSucceeds(cc, plans, recipes, a, b, c, failed);
    MergedFollows(plans, recipes);
    SecondRunCompiles(cc, plans, recipes, a, b);
    PastAfter(cc, plans, a, b);
    SecondRunCompiles(cc, plans, recipes, b, c);
    hide Merged, Compiled, TableNewer, UpToDate, Follows, StaleJobs;
    forall p | p in jobs ensures !TableNewer(c.files, recipes[p]) {
      TableStays(cc, b, c, jobs, recipes, p);
    }
    NoneStale(c.files, jobs, recipes);
  }

  lemma PastAfter(cc: Compiler, plans: seq<Plan>, a: World, b: World)
    requires Ran(cc, plans, a, b, {})
    ensures Past(b.files, b.now)
  {
    hide Fresh, StaleJobs;
  }

  lemma NoneStale(files: Files, jobs: map<Path, Job>, recipes: Recipes)
    requires forall p :: p in jobs ==> p in recipes && (p in StaleJobs(files, jobs) <==> TableNewer(files, recipes[p]))
    requires forall p :: p in jobs ==> !TableNewer(files, recipes[p])
    ensures StaleJobs(files, jobs) == {}
  {
    hide TableNewer, IsStale;
  }

  lemma TableStays(cc: Compiler, b: World, c: World, jobs: map<Path, Job>, recipes: Recipes, p: Path)
    requires GoodRecipes(recipes) && Past(b.files, b.now) && RunsTo(cc, b.files, b.now, jobs, c.files, c.now, {})
    requires forall q :: q in jobs ==> q in recipes && jobs[q] == recipes[q]
    requires forall q :: q in jobs ==> (q in StaleJobs(b.files, jobs) <==> TableNewer(b.files, recipes[q]))
    requires p in jobs
    ensures !TableNewer(c.files, recipes[p])
  {
    hide Fresh, IsStale;
    var table := Generated(recipes[p].gen, TABLE);
    assert table in jobs ==> recipes[table].gen == table.dir && recipes[table].obj == table;
    assert table !in StaleJobs(b.files, jobs);
    if p !in StaleJobs(b.files, jobs) { assert !TableNewer(b.files, recipes[p]); }
  }

  // ------------------------------------------------------------------------
  // Which changes are missed
  // ------------------------------------------------------------------------

  /** What a job's compilation reads. */
  function InputsOf(files: Files, job: Job): Inputs
    requires job.src in files
  {
    Inputs(files[job.src].content, job.flags, HeadersOf(files), GeneratedOf(files, job.gen))
  }

  /** Whatever the compiler, an object that was right before the change is right, or compiled again, after it. */
  ghost predicate Safe(files: Files, after: Files, job: Job)
    requires job.obj in files
  {
    forall cc: Compiler :: Fresh(cc, files, job) == Some(files[job.obj].content) ==>
      IsStale(after, job) || (job.obj in after && Fresh(cc, after, job) == Some(after[job.obj].content))
  }

  /** A change that leaves an object alone is safe for it exactly if it makes the
      object stale or leaves everything the compilation reads as it was. */
  lemma SafeIff(files: Files, after: Files, job: Job)
    requires !IsStale(files, job) && (job.obj in after ==> after[job.obj] == files[job.obj])
    ensures Safe(files, after, job) <==> IsStale(after, job) || InputsOf(after, job) == InputsOf(files, job)
  {
    if !IsStale(after, job) {
      var before, content := InputsOf(files, job), files[job.obj].content;
      var cc: Compiler := (i: Inputs) => if i == before then Some(content) else None;
      assert Fresh(cc, files, job) == Some(content);
      if InputsOf(after, job) != before { assert Fresh(cc, after, job) == None; }
    }
  }

  /** A deletion is missed exactly if the file is a header or lies in the
      job's header directory without being an object, and is not its source. */
  lemma DeletionSafeIff(files: Files, job: Job, q: Path)
    requires !IsStale(files, job) && IsObject(job.obj) && q in files
    ensures Safe(files, files - {q}, job) <==> q == job.src || !(q.Header? || IsInput(q, job.gen))
  {
    var after := files - {q};
    SafeIff(files, after, job);
    NothingNewer(files, after, job);
    if q != job.src && q != job.obj {
      if q.Header? {
        assert q in HeadersOf(files) && q !in HeadersOf(after);
      } else if IsInput(q, job.gen) {
        assert q in GeneratedOf(files, job.gen) && q !in GeneratedOf(after, job.gen);
      } else {
        assert HeadersOf(after) == HeadersOf(files) && GeneratedOf(after, job.gen) == GeneratedOf(files, job.gen);
      }
    }
  }

  /** Nothing becomes stale by what is deleted, if source and object stay. */
  lemma NothingNewer(files: Files, after: Files, job: Job)
    requires !IsStale(files, job) && forall p :: p in after ==> p in files && after[p] == files[p]
    ensures IsStale(after, job) <==> job.src !in after || job.obj !in after
  {
  }

  /** A file written with another content, at whatever time, is missed exactly if
      the compilation reads it and its time is not above the object's. */
  lemma RewriteSafeIff(files: Files, job: Job, q: Path, content: string, m: nat)
    requires !IsStale(files, job) && q != job.obj && (q in files ==> files[q].content != content)
    ensures Safe(files, files[q := File(content, m)], job) <==>
              !(q == job.src || q.Header? || IsInput(q, job.gen)) || m > files[job.obj].mtime
  {
    var after, t := files[q := File(content, m)], files[job.obj].mtime;
    SafeIff(files, after, job);
    if q == job.src || q.Header? || IsInput(q, job.gen) {
      InputRewritten(files, job, q, content, m);
    } else {
      assert HeadersOf(after) == HeadersOf(files) && GeneratedOf(after, job.gen) == GeneratedOf(files, job.gen);
    }
  }

  lemma InputRewritten(files: Files, job: Job, q: Path, content: string, m: nat)
    requires !IsStale(files, job) && q != job.obj && (q in files ==> files[q].content != content)
    requires q == job.src || q.Header? || IsInput(q, job.gen)
    ensures var after := files[q := File(content, m)];
            && (IsStale(after, job) <==> m > files[job.obj].mtime)
            && InputsOf(after, job) != InputsOf(files, job)
  {
    var after, t := files[q := File(content, m)], files[job.obj].mtime;
    var i, j := InputsOf(files, job), InputsOf(after, job);
    if q == job.src {
      assert i.source != j.source;
    } else if q.Header? {
      assert q in j.headers && j.headers[q] == content && (q in files <==> q in i.headers);
      assert i.headers != j.headers;
    } else {
      assert q in j.generated && j.generated[q] == content && (q in files <==> q in i.generated);
      assert i.generated != j.generated;
    }
    assert after[q].mtime == m;
    if m <= t {
      forall p | p in after && (p.Header? || (p.Generated? && p.dir == job.gen)) ensures after[p].mtime <= t {
        assert p != q ==> p in files && after[p] == files[p];
      }
    }
  }

  /** Two writes at the same time: the edit is missed. */
  lemma SameTimeMissesEdit()
    ensures var job := Job(Source("a.c"), Object("gen", "a"), [], "gen");
            var cc: Compiler := (i: Inputs) => Some(i.source);
            var files := map[Source("a.c") := File("new", 5), Object("gen", "a") := File("old", 5)];
            !IsStale(files, job) && Fresh(cc, files, job) != Some(files[job.obj].content)
  {
  }

  /** A deleted header is not seen: the object still holds it. */
  lemma DeletionMissed()
    ensures var job := Job(Source("a.c"), Object("gen", "a"), [], "gen");
            var cc: Compiler := (i: Inputs) => if Header("a.h") in i.headers then Some(i.source) else None;
            var before := map[Source("a.c") := File("x", 1), Header("a.h") := File("h", 2),
                              Object("gen", "a") := File("x", 3)];
            var after := before - {Header("a.h")};
            && Fresh(cc, before, job) == Some(before[job.obj].content)
            && !IsStale(after, job) && Fresh(cc, after, job).None?
  {
  }
}
