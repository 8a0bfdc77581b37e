/** The compile plan of one scenario (tools/trace_build.py, plan_scenario), and
    when two scenarios' plans disagree about an object. */
module TracePlan {
  import opened Common
  import opened Text
  import opened TraceBuild
  import opened CleanBuild

  datatype Scenario = Scenario(name: string, sources: seq<string>, cflags: seq<string>, mcu: Option<string>)

  const DEFAULT_MCU := "33AK512MPS512"

  function GenDir(mcu: Option<string>): string {
    if mcu.None? || mcu.value == DEFAULT_MCU then "gen" else "gen_" + mcu.value
  }

  /** Every run of other characters becomes one underscore. */
  function Collapsed(s: string, inRun: bool): string {
    if s == [] then ""
    else if IsWord(s[0]) then [s[0]] + Collapsed(s[1..], false)
    else (if inRun then "" else "_") + Collapsed(s[1..], true)
  }

  function TrimLeft(s: string): string { if s != [] && s[0] == '_' then TrimLeft(s[1..]) else s }

  function TrimRight(s: string): string { if s != [] && s[|s| - 1] == '_' then TrimRight(s[..|s| - 1]) else s }

  function Sanitize(s: string): string {
    var t := TrimRight(TrimLeft(Collapsed(s, false)));
    if t == "" then "base" else t
  }

  function Joined(parts: seq<string>): string {
    if parts == [] then "" else if |parts| == 1 then parts[0] else parts[0] + "_" + Joined(parts[1..])
  }

  predicate Contains(s: string, part: string) { part <= s || (s != [] && Contains(s[1..], part)) }

  function NonHave(flags: seq<string>): seq<string> {
    if flags == [] then []
    else (if Contains(flags[0], "HAVE") then [] else [flags[0]]) + NonHave(flags[1..])
  }

  function LastIndex(s: string, c: char): (i: int)
    ensures -1 <= i < |s|
  {
    if s == [] then -1 else if s[|s| - 1] == c then |s| - 1 else LastIndex(s[..|s| - 1], c)
  }

  /** The file name without directory and last suffix. */
  function Stem(path: string): string {
    var name := path[LastIndex(path, '/') + 1..];
    var dot := LastIndex(name, '.');
    if dot <= 0 || dot == |name| - 1 then name else name[..dot]
  }

  /** Files no scenario feature changes share their objects. */
  function SharedTier(s: Scenario): string {
    var flags := NonHave(s.cflags);
    Sanitize(GenDir(s.mcu) + if flags == [] then "" else "_" + Joined(flags))
  }

  function OwnTier(s: Scenario): string { Sanitize(GenDir(s.mcu) + "__" + Joined(s.cflags)) }

  /** One entry of the plan; a later one for the same object replaces it. */
  function Added(s: Scenario, jobs: map<Path, Job>, src: Path, obj: Path, flags: seq<string>): map<Path, Job> {
    jobs[obj := Job(src, obj, flags, GenDir(s.mcu))]
  }

  function FixedJobs(s: Scenario): map<Path, Job> {
    var a, b, dir := SharedTier(s), OwnTier(s), GenDir(s.mcu);
    var j1 := Added(s, map[], Source("harness/recorder.c"), Object(a, "recorder"), NonHave(s.cflags));
    var j2 := Added(s, j1, Source("harness/hwmodel.c"), Object(a, "hwmodel"), NonHave(s.cflags));
    var j3 := Added(s, j2, Source("harness/stubs.c"), Object(b, "stubs"), s.cflags);
    var j4 := Added(s, j3, Source("scenarios/" + s.name + ".c"), Object(b, s.name + "__main"), s.cflags);
    Added(s, j4, Generated(dir, "sfr_table.c"), Generated(dir, TABLE), [])
  }

  function FirmwareObjects(s: Scenario, sources: seq<string>): (r: seq<Path>)
    ensures |r| == |sources|
  {
    seq(|sources|, i requires 0 <= i < |sources| => Object(SharedTier(s), Stem(sources[i])))
  }

  function WithFirmware(s: Scenario, sources: seq<string>): map<Path, Job> {
    if sources == [] then FixedJobs(s)
    else
      var n := |sources| - 1;
      Added(s, WithFirmware(s, sources[..n]), Source(sources[n]), Object(SharedTier(s), Stem(sources[n])),
          NonHave(s.cflags))
  }

  function PlanOf(s: Scenario): Plan {
    Plan(WithFirmware(s, s.sources),
         [Object(OwnTier(s), s.name + "__main"), Object(SharedTier(s), "recorder"), Object(OwnTier(s), "stubs"),
          Object(SharedTier(s), "hwmodel"), Generated(GenDir(s.mcu), TABLE)]
         + FirmwareObjects(s, s.sources))
  }

  method PlanScenario(s: Scenario) returns (plan: Plan)
    ensures plan == PlanOf(s)
  {
    hide SharedTier, OwnTier, NonHave, Stem, GenDir, FixedJobs;
    var jobs := FixedJobs(s);
    var fwObjs := [];
    assert s.sources[..0] == [];
    for i := 0 to |s.sources|
      invariant jobs == WithFirmware(s, s.sources[..i])
      invariant fwObjs == FirmwareObjects(s, s.sources[..i])
    {
      assert s.sources[..i + 1][..i] == s.sources[..i];
      var obj := Object(SharedTier(s), Stem(s.sources[i]));
      jobs := Added(s, jobs, Source(s.sources[i]), obj, NonHave(s.cflags));
      fwObjs := fwObjs + [obj];
    }
    assert s.sources[..|s.sources|] == s.sources;
    plan := Plan(jobs, [Object(OwnTier(s), s.name + "__main"), Object(SharedTier(s), "recorder"),
                        Object(OwnTier(s), "stubs"),
                        Object(SharedTier(s), "hwmodel"), Generated(GenDir(s.mcu), TABLE)] + fwObjs);
  }

  // ------------------------------------------------------------------------
  // The plan is good
  // ------------------------------------------------------------------------

  /** Every job makes the object it is listed under, from a source that is none,
      with the scenario's header directory. */
  predicate GoodJobs(s: Scenario, jobs: map<Path, Job>) {
    JobsHaveKeys(jobs) && forall p :: p in jobs ==>
      !IsObject(jobs[p].src) && jobs[p].gen == GenDir(s.mcu) && (p.Generated? ==> p.dir == GenDir(s.mcu))
  }

  lemma AddedGood(s: Scenario, jobs: map<Path, Job>, src: Path, obj: Path, flags: seq<string>)
    requires GoodJobs(s, jobs) && !IsObject(src) && obj.Object?
    ensures GoodJobs(s, Added(s, jobs, src, obj, flags))
  {
    hide GenDir;
  }

  lemma {:induction false} FirmwareGood(s: Scenario, sources: seq<string>)
    ensures GoodJobs(s, WithFirmware(s, sources))
    ensures forall p :: p in FixedJobs(s) ==> p in WithFirmware(s, sources)
    ensures forall k :: 0 <= k < |sources| ==> FirmwareObjects(s, sources)[k] in WithFirmware(s, sources)
  {
    hide SharedTier, OwnTier, NonHave, Stem, GenDir;
    if sources == [] {
      FixedGood(s);
    } else {
      var n := |sources| - 1;
      hide FixedJobs;
      FirmwareGood(s, sources[..n]);
      AddedGood(s, WithFirmware(s, sources[..n]), Source(sources[n]), Object(SharedTier(s), Stem(sources[n])),
          NonHave(s.cflags));
      hide GoodJobs;
      assert forall k :: 0 <= k < n ==> FirmwareObjects(s, sources)[k] == FirmwareObjects(s, sources[..n])[k];
    }
  }

  lemma FixedGood(s: Scenario)
    ensures GoodJobs(s, FixedJobs(s))
  {
    hide SharedTier, OwnTier, NonHave, GenDir;
    assert TABLE != "sfr_table.c" by { assert TABLE[10] != "sfr_table.c"[10]; }
  }

  /** Everything a scenario links is in its plan. */
  lemma PlanLinksItsJobs(s: Scenario)
    ensures GoodJobs(s, PlanOf(s).jobs)
    ensures forall k :: 0 <= k < |PlanOf(s).links| ==> PlanOf(s).links[k] in PlanOf(s).jobs
  {
    FirmwareGood(s, s.sources);
    hide SharedTier, OwnTier, NonHave, Stem, GenDir;
    var fixed := FixedJobs(s);
    assert Object(OwnTier(s), s.name + "__main") in fixed && Object(SharedTier(s), "recorder") in fixed;
    assert Object(OwnTier(s), "stubs") in fixed && Object(SharedTier(s), "hwmodel") in fixed;
    assert Generated(GenDir(s.mcu), TABLE) in fixed;
    hide FixedJobs, WithFirmware;
  }

  lemma {:induction false} FirmwareOnly(s: Scenario, sources: seq<string>)
    ensures forall p :: p in WithFirmware(s, sources) ==> p in FixedJobs(s) || p in FirmwareObjects(s, sources)
  {
    hide SharedTier, OwnTier, NonHave, Stem, GenDir, FixedJobs;
    if sources != [] {
      var n := |sources| - 1;
      FirmwareOnly(s, sources[..n]);
      assert forall k :: 0 <= k < n ==> FirmwareObjects(s, sources)[k] == FirmwareObjects(s, sources[..n])[k];
      assert FirmwareObjects(s, sources)[n] == Object(SharedTier(s), Stem(sources[n]));
    }
  }

  lemma FixedLinked(s: Scenario)
    ensures forall p :: p in FixedJobs(s) ==> p in PlanOf(s).links
    ensures forall p :: p in FirmwareObjects(s, s.sources) ==> p in PlanOf(s).links
  {
    hide SharedTier, OwnTier, NonHave, Stem, GenDir;
    var links := PlanOf(s).links;
    assert links[0] == Object(OwnTier(s), s.name + "__main") && links[1] == Object(SharedTier(s), "recorder");
    assert links[2] == Object(OwnTier(s), "stubs") && links[3] == Object(SharedTier(s), "hwmodel");
    assert links[4] == Generated(GenDir(s.mcu), TABLE);
    hide FirmwareObjects;
    forall p | p in FirmwareObjects(s, s.sources) ensures p in links {
      var k :| 0 <= k < |FirmwareObjects(s, s.sources)| && FirmwareObjects(s, s.sources)[k] == p;
      assert links[5 + k] == p;
    }
  }

  /** A scenario links exactly what its plan makes. */
  lemma PlanLinksAll(s: Scenario)
    ensures forall p :: p in PlanOf(s).jobs <==> p in PlanOf(s).links
  {
    PlanLinksItsJobs(s);
    FirmwareOnly(s, s.sources);
    FixedLinked(s);
    assert PlanOf(s).jobs == WithFirmware(s, s.sources);
    hide PlanOf, WithFirmware, FixedJobs, FirmwareObjects;
  }

  function PlansOf(scenarios: seq<Scenario>): (r: seq<Plan>)
    ensures |r| == |scenarios|
  {
    seq(|scenarios|, i requires 0 <= i < |scenarios| => PlanOf(scenarios[i]))
  }

  /** No two scenarios make one object in different ways. */
  predicate NoCollision(scenarios: seq<Scenario>) {
    forall i, j, p :: 0 <= i < |scenarios| && 0 <= j < |scenarios|
                      && p in PlanOf(scenarios[i]).jobs && p in PlanOf(scenarios[j]).jobs ==>
      PlanOf(scenarios[i]).jobs[p] == PlanOf(scenarios[j]).jobs[p]
  }

  /** Then the merged plan is a recipe for all of them: a build that keeps its
      scenarios satisfies what the clean-build theorem asks for. */
  lemma PlansMakeRecipes(scenarios: seq<Scenario>)
    requires NoCollision(scenarios)
    ensures GoodRecipes(Merged(PlansOf(scenarios)))
    ensures Follows(PlansOf(scenarios), Merged(PlansOf(scenarios))) && LinksPlanned(PlansOf(scenarios))
  {
    var plans := PlansOf(scenarios);
    MergedFrom(plans);
    hide PlanOf, Merged, IsObject;
    forall i | 0 <= i < |plans|
      ensures GoodJobs(scenarios[i], plans[i].jobs)
      ensures forall k :: 0 <= k < |plans[i].links| ==> plans[i].links[k] in plans[i].jobs
    {
      PlanLinksItsJobs(scenarios[i]);
    }
  }

  lemma {:induction false} MergedFrom(plans: seq<Plan>)
    ensures forall p :: p in Merged(plans) ==>
              exists i :: 0 <= i < |plans| && p in plans[i].jobs && Merged(plans)[p] == plans[i].jobs[p]
    ensures forall i, p :: 0 <= i < |plans| && p in plans[i].jobs ==> p in Merged(plans)
  {
    if plans != [] {
      var n := |plans| - 1;
      MergedFrom(plans[..n]);
      assert forall i :: 0 <= i < n ==> plans[..n][i] == plans[i];
      forall p | p in Merged(plans)
        ensures exists i :: 0 <= i < |plans| && p in plans[i].jobs && Merged(plans)[p] == plans[i].jobs[p]
      {
        if p in Merged(plans[..n]) {
          var i :| 0 <= i < n && p in plans[..n][i].jobs && Merged(plans[..n])[p] == plans[..n][i].jobs[p];
          assert p in plans[i].jobs && Merged(plans)[p] == plans[i].jobs[p];
        } else {
          assert p in plans[n].jobs && Merged(plans)[p] == plans[n].jobs[p];
        }
      }
    }
  }

  lemma {:induction false} WithoutH(s: string)
    requires forall i :: 0 <= i < |s| ==> s[i] != 'H'
    ensures !Contains(s, "HAVE")
  {
    assert "HAVE"[0] == 'H';
    if s != [] { WithoutH(s[1..]); }
  }

  lemma {:induction false} NoHaves(flags: seq<string>)
    requires forall k :: 0 <= k < |flags| ==> forall i :: 0 <= i < |flags[k]| ==> flags[k][i] != 'H'
    ensures NonHave(flags) == flags
  {
    hide Contains;
    if flags != [] {
      WithoutH(flags[0]);
      NoHaves(flags[1..]);
    }
  }

  predicate HoldsAt(s: string, i: nat, part: string) { i + |part| <= |s| && s[i..i + |part|] == part }

  lemma {:induction false} ContainsIff(s: string, part: string)
    ensures Contains(s, part) <==> exists i: nat :: HoldsAt(s, i, part)
  {
    if part <= s {
      assert HoldsAt(s, 0, part);
    } else if s != [] {
      var rest := s[1..];
      ContainsIff(rest, part);
      if i: nat :| HoldsAt(rest, i, part) { assert HoldsAt(s, i + 1, part); }
      if i: nat :| HoldsAt(s, i, part) { assert HoldsAt(rest, i - 1, part); }
    }
  }

  ghost predicate NamesFeature(flag: string) { exists i: nat :: HoldsAt(flag, i, "HAVE") }

  lemma NamesIff(f: string)
    ensures NamesFeature(f) <==> Contains(f, "HAVE")
  {
    ContainsIff(f, "HAVE");
  }

  /** The shared tier's flags: all that name no scenario feature. */
  lemma {:induction false} SharedFlagsIff(flags: seq<string>, f: string)
    ensures f in NonHave(flags) <==> f in flags && !NamesFeature(f)
  {
    if flags != [] {
      var rest := flags[1..];
      hide Contains, NamesFeature;
      NamesIff(flags[0]);
      SharedFlagsIff(rest, f);
      assert flags == [flags[0]] + rest;
    }
  }

  lemma SameFlagsText(a: Scenario, b: Scenario)
    requires a.mcu == b.mcu && NonHave(a.cflags) == a.cflags != [] && NonHave(b.cflags) == b.cflags != []
    requires Joined(a.cflags) == Joined(b.cflags)
    ensures SharedTier(a) == SharedTier(b)
  {
    hide Sanitize, NonHave, Joined, GenDir;
  }

  lemma JoinedTwo(x: string, y: string)
    ensures Joined([x, y]) == x + "_" + y && Joined([x]) == x
  {
    assert [x, y][1..] == [y];
  }

  // ------------------------------------------------------------------------
  // Which scenarios collide
  // ------------------------------------------------------------------------

  const HARNESS: map<string, Path> :=
    map["recorder" := Source("harness/recorder.c"), "hwmodel" := Source("harness/hwmodel.c")]

  function OwnFiles(s: Scenario): map<string, Path> {
    map["stubs" := Source("harness/stubs.c"), s.name + "__main" := Source("scenarios/" + s.name + ".c")]
  }

  /** The firmware's files by stem; of two with one stem, the later. */
  function Firmware(sources: seq<string>): map<string, Path> {
    if sources == [] then map[] else Firmware(sources[..|sources| - 1])[Stem(Last(sources)) := Source(Last(sources))]
  }

  function Last(sources: seq<string>): string
    requires sources != []
  {
    sources[|sources| - 1]
  }

  /** From which file, with which flags a scenario makes the object of this name in this tier, if it does. */
  function Maker(s: Scenario, sources: seq<string>, tier: string, name: string): Option<(Path, seq<string>)> {
    if tier == SharedTier(s) && name in Firmware(sources) then Some((Firmware(sources)[name], NonHave(s.cflags)))
    else if tier == OwnTier(s) && name in OwnFiles(s) then Some((OwnFiles(s)[name], s.cflags))
    else if tier == SharedTier(s) && name in HARNESS then Some((HARNESS[name], NonHave(s.cflags)))
    else None
  }

  predicate Makes(s: Scenario, sources: seq<string>, jobs: map<Path, Job>, tier: string, name: string) {
    var p, m := Object(tier, name), Maker(s, sources, tier, name);
    (p in jobs <==> m.Some?) && (m.Some? ==> jobs[p] == Job(m.value.0, p, m.value.1, GenDir(s.mcu)))
  }

  lemma FixedMakes(s: Scenario, tier: string, name: string)
    ensures Makes(s, [], FixedJobs(s), tier, name)
  {
    hide SharedTier, OwnTier, NonHave, GenDir;
    var m := s.name + "__main";
    assert m[|m| - 1] == 'n' && "recorder"[7] == 'r' && "hwmodel"[6] == 'l' && "stubs"[4] == 's';
    assert "recorder"[0] != "hwmodel"[0] && "recorder"[0] != "stubs"[0] && "hwmodel"[0] != "stubs"[0];
  }

  lemma {:induction false} FirmwareMakes(s: Scenario, sources: seq<string>, tier: string, name: string)
    ensures Makes(s, sources, WithFirmware(s, sources), tier, name)
  {
    hide SharedTier, OwnTier, NonHave, GenDir, Stem, OwnFiles, FixedJobs;
    if sources == [] {
      FixedMakes(s, tier, name);
    } else {
      FirmwareMakes(s, sources[..|sources| - 1], tier, name);
    }
  }

  lemma {:induction false} TableMade(s: Scenario, sources: seq<string>)
    ensures forall p :: p in WithFirmware(s, sources) && p.Generated? ==> p == Generated(GenDir(s.mcu), TABLE)
    ensures forall p :: p in WithFirmware(s, sources) ==> p.Generated? || p.Object?
    ensures var p := Generated(GenDir(s.mcu), TABLE);
            p in WithFirmware(s, sources)
            && WithFirmware(s, sources)[p] == Job(Generated(GenDir(s.mcu), "sfr_table.c"), p, [], GenDir(s.mcu))
  {
    hide SharedTier, OwnTier, NonHave, GenDir, Stem;
    if sources != [] {
      hide FixedJobs;
      TableMade(s, sources[..|sources| - 1]);
    }
  }

  /** Two scenarios that make every object they share from one file, with the same flags and header directory. */
  ghost predicate Compatible(s: Scenario, t: Scenario) {
    forall tier, name ::
      Maker(s, s.sources, tier, name).Some? && Maker(t, t.sources, tier, name).Some? ==>
        Maker(s, s.sources, tier, name) == Maker(t, t.sources, tier, name) && GenDir(s.mcu) == GenDir(t.mcu)
  }

  predicate Agree(s: Scenario, t: Scenario) {
    forall p :: p in PlanOf(s).jobs && p in PlanOf(t).jobs ==> PlanOf(s).jobs[p] == PlanOf(t).jobs[p]
  }

  lemma AgreeIff(s: Scenario, t: Scenario)
    ensures Agree(s, t) <==> Compatible(s, t)
  {
    hide Maker, WithFirmware, GenDir;
    var a, b := PlanOf(s).jobs, PlanOf(t).jobs;
    forall tier, name ensures Makes(s, s.sources, a, tier, name) && Makes(t, t.sources, b, tier, name) {
      FirmwareMakes(s, s.sources, tier, name);
      FirmwareMakes(t, t.sources, tier, name);
    }
    if Agree(s, t) {
      forall tier, name | Maker(s, s.sources, tier, name).Some? && Maker(t, t.sources, tier, name).Some?
        ensures Maker(s, s.sources, tier, name) == Maker(t, t.sources, tier, name) && GenDir(s.mcu) == GenDir(t.mcu)
      {
        assert Makes(s, s.sources, a, tier, name) && Makes(t, t.sources, b, tier, name);
        assert a[Object(tier, name)] == b[Object(tier, name)];
      }
    }
    if Compatible(s, t) {
      TableMade(s, s.sources);
      TableMade(t, t.sources);
      forall p | p in a && p in b ensures a[p] == b[p] {
        if p.Object? {
          assert Makes(s, s.sources, a, p.tier, p.stem) && Makes(t, t.sources, b, p.tier, p.stem);
        }
      }
    }
  }

  /** No two scenarios collide exactly if each two are compatible. */
  lemma NoCollisionIff(scenarios: seq<Scenario>)
    ensures NoCollision(scenarios) <==>
            forall i, j :: 0 <= i < |scenarios| && 0 <= j < |scenarios| ==> Compatible(scenarios[i], scenarios[j])
  {
    hide PlanOf, Compatible;
    forall i, j | 0 <= i < |scenarios| && 0 <= j < |scenarios|
      ensures Agree(scenarios[i], scenarios[j]) <==> Compatible(scenarios[i], scenarios[j])
    {
      AgreeIff(scenarios[i], scenarios[j]);
    }
  }

  predicate EndsMain(name: string) { |name| >= 6 && name[|name| - 6..] == "__main" }

  /** No firmware file is called like one of the harness or like a scenario's main object. */
  predicate Ordinary(s: Scenario) {
    forall name :: name in Firmware(s.sources) ==> name !in HARNESS && name != "stubs" && !EndsMain(name)
  }

  /** Scenarios with one shared tier have its flags, its header directory and its
      files in common, those with one own tier its flags and header directory. */
  predicate TiersAgree(s: Scenario, t: Scenario) {
    && (SharedTier(s) == SharedTier(t) ==>
          && NonHave(s.cflags) == NonHave(t.cflags) && GenDir(s.mcu) == GenDir(t.mcu)
          && forall name :: name in Firmware(s.sources) && name in Firmware(t.sources) ==>
               Firmware(s.sources)[name] == Firmware(t.sources)[name])
    && (OwnTier(s) == OwnTier(t) ==> s.cflags == t.cflags && GenDir(s.mcu) == GenDir(t.mcu))
  }

  lemma OrdinaryMakers(s: Scenario)
    requires Ordinary(s)
    ensures Maker(s, s.sources, SharedTier(s), "recorder") == Some((HARNESS["recorder"], NonHave(s.cflags)))
    ensures Maker(s, s.sources, OwnTier(s), "stubs") == Some((OwnFiles(s)["stubs"], s.cflags))
  {
    hide SharedTier, OwnTier, NonHave, GenDir, Firmware, EndsMain;
    OwnMains(s);
    assert "recorder" in HARNESS && "stubs" in OwnFiles(s);
  }

  lemma CompatibleTiers(s: Scenario, t: Scenario)
    requires Ordinary(s) && Ordinary(t) && Compatible(s, t)
    ensures TiersAgree(s, t)
  {
    OrdinaryMakers(s);
    OrdinaryMakers(t);
    hide SharedTier, OwnTier, NonHave, GenDir, Firmware, OwnFiles;
    forall name | SharedTier(s) == SharedTier(t) && name in Firmware(s.sources) && name in Firmware(t.sources)
      ensures Firmware(s.sources)[name] == Firmware(t.sources)[name]
    {
      var tier := SharedTier(s);
      assert Maker(s, s.sources, tier, name).Some? && Maker(t, t.sources, tier, name).Some?;
    }
  }

  /** Ordinary scenarios collide exactly if they share a tier without sharing what it is made of. */
  lemma CompatibleIff(s: Scenario, t: Scenario)
    requires Ordinary(s) && Ordinary(t)
    ensures Compatible(s, t) <==> TiersAgree(s, t)
  {
    if Compatible(s, t) { CompatibleTiers(s, t); }
    OwnMains(s);
    OwnMains(t);
    hide SharedTier, OwnTier, NonHave, GenDir, Firmware, EndsMain, OwnFiles;
  }

  /** A scenario's own objects are not named like others. */
  lemma OwnMains(s: Scenario)
    ensures forall name :: name in OwnFiles(s) ==> name == "stubs" || EndsMain(name)
    ensures forall name :: name in OwnFiles(s) ==> name !in HARNESS
    ensures forall name, t :: name in OwnFiles(s) && name in OwnFiles(t) ==> OwnFiles(s)[name] == OwnFiles(t)[name]
  {
    var m := s.name + "__main";
    assert m[|m| - 6..] == "__main" && m[|m| - 1] == 'n';
    assert "recorder"[7] == 'r' && "hwmodel"[6] == 'l' && "stubs"[4] == 's';
    assert "recorder"[0] != "stubs"[0] && "hwmodel"[0] != "stubs"[0];
    forall name, t | name in OwnFiles(s) && name in OwnFiles(t) ensures OwnFiles(s)[name] == OwnFiles(t)[name] {
      var n := t.name + "__main";
      assert n[|n| - 1] == 'n';
      if m == n { assert s.name == m[..|m| - 6] == n[..|n| - 6] == t.name; }
    }
  }

  // ------------------------------------------------------------------------
  // What a collision does
  // ------------------------------------------------------------------------

  lemma FirstPlanStays(s: Scenario, t: Scenario, p: Path)
    requires p in PlanOf(s).jobs
    ensures p in Merged(PlansOf([s, t])) && Merged(PlansOf([s, t]))[p] == PlanOf(s).jobs[p]
  {
    hide PlanOf;
    var plans := PlansOf([s, t]);
    assert plans[..1] == [PlanOf(s)] && plans[..1][..0] == [];
    assert Merged(plans[..1]) == PlanOf(s).jobs + Merged([]);
    assert Merged(plans) == PlanOf(t).jobs + Merged(plans[..1]);
  }

  /** A clean run of two scenarios that share an object: it is the first one's.
      The second links what its own job would give exactly if both jobs give the same. */
  lemma FirstObjectLinked(cc: Compiler, s: Scenario, t: Scenario, p: Path, a: World, b: World, failed: set<Path>)
    requires p in PlanOf(s).jobs && p in PlanOf(t).jobs && p !in a.files && p !in failed
    requires Ran(cc, PlansOf([s, t]), a, b, failed)
    ensures p in b.files && Fresh(cc, b.files, PlanOf(s).jobs[p]) == Some(b.files[p].content)
    ensures Fresh(cc, b.files, PlanOf(t).jobs[p]) == Some(b.files[p].content)
            <==> Fresh(cc, b.files, PlanOf(s).jobs[p]) == Fresh(cc, b.files, PlanOf(t).jobs[p])
  {
    FirstPlanStays(s, t, p);
    PlanLinksItsJobs(s);
    hide PlanOf, Merged, Fresh;
    var jobs := Merged(PlansOf([s, t]));
    assert jobs[p].obj == p && p in StaleJobs(a.files, jobs);
    FreshSame(cc, a.files, b.files, jobs[p]);
  }

  /** Two jobs give the same with every compiler exactly if they read the same. */
  lemma SameObjectIff(files: Files, i: Job, j: Job)
    requires i.src in files && j.src in files
    ensures (forall cc: Compiler :: Fresh(cc, files, i) == Fresh(cc, files, j))
            <==> InputsOf(files, i) == InputsOf(files, j)
  {
    var wanted := InputsOf(files, i);
    var cc: Compiler := (x: Inputs) => if x == wanted then Some("") else None;
    if InputsOf(files, j) != wanted { assert Fresh(cc, files, i) != Fresh(cc, files, j); }
  }

  function TwoFlags(): Scenario { Scenario("a", [], ["-DX", "-DY"], None) }

  function OneFlag(): Scenario { Scenario("b", [], ["-DX_-DY"], None) }

  lemma SameTier()
    ensures SharedTier(TwoFlags()) == SharedTier(OneFlag())
    ensures NonHave(TwoFlags().cflags) == ["-DX", "-DY"] && NonHave(OneFlag().cflags) == ["-DX_-DY"]
  {
    var a, b := TwoFlags(), OneFlag();
    NoHaves(a.cflags);
    NoHaves(b.cflags);
    JoinedTwo("-DX", "-DY");
    JoinedTwo("-DX_-DY", "");
    assert "-DX" + "_" + "-DY" == "-DX_-DY";
    hide NonHave, Joined, SharedTier;
    SameFlagsText(a, b);
  }

  lemma RecorderJob(s: Scenario)
    requires s.sources == []
    ensures var p := Object(SharedTier(s), "recorder");
            && p in PlanOf(s).jobs && p in PlanOf(s).links
            && PlanOf(s).jobs[p] == Job(Source("harness/recorder.c"), p, NonHave(s.cflags), GenDir(s.mcu))
  {
    hide SharedTier, OwnTier, NonHave, GenDir, FixedJobs, OwnFiles;
    FixedMakes(s, SharedTier(s), "recorder");
    OwnMains(s);
    assert PlanOf(s).links[1] == Object(SharedTier(s), "recorder");
  }

  /** The flags are joined with underscores: two flags, and one that contains
      the underscore, give one tier. A clean run links the second scenario with
      a recorder compiled with the first one's flags. */
  lemma FlagsCollide(a: World, b: World, failed: set<Path>)
    requires var cc: Compiler := (i: Inputs) => Some(if |i.flags| == 2 then "two" else "one");
             Ran(cc, PlansOf([TwoFlags(), OneFlag()]), a, b, failed)
    requires Source("harness/recorder.c") in a.files && Object(SharedTier(OneFlag()), "recorder") !in a.files
    ensures var cc: Compiler := (i: Inputs) => Some(if |i.flags| == 2 then "two" else "one");
            var p := Object(SharedTier(OneFlag()), "recorder");
            && p in PlanOf(OneFlag()).links && p in PlanOf(OneFlag()).jobs
            && p in b.files && b.files[p].content == "two"
            && Fresh(cc, b.files, PlanOf(OneFlag()).jobs[p]) == Some("one")
    ensures !Compatible(TwoFlags(), OneFlag())
  {
    var cc: Compiler := (i: Inputs) => Some(if |i.flags| == 2 then "two" else "one");
    var s, t := TwoFlags(), OneFlag();
    var p := Object(SharedTier(t), "recorder");
    SameTier();
    RecorderJob(s);
    RecorderJob(t);
    FirstPlanStays(s, t, p);
    hide PlanOf, Merged, SharedTier, NonHave, OwnTier;
    assert Fresh(cc, a.files, PlanOf(s).jobs[p]).Some?;
    assert p !in failed;
    FirstObjectLinked(cc, s, t, p, a, b, failed);
    AgreeIff(s, t);
    assert PlanOf(s).jobs[p].flags != PlanOf(t).jobs[p].flags;
  }
}
