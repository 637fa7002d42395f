/**
 * The stage runners `full_analysis`, `stop_at_chimera_removal`,
 * `start_otu_pickng` and `start_diversity_analysis`
 * (qiime_analysis.py:480-573) and the dispatch between them at the end of
 * the script (733-762). A run is the list of stages it executes, each with
 * the jobs or commands it hands to the external tools, and the error that
 * ended it early, if any. The listings of the folders the stages read are
 * inputs.
 */
module Workflow {
  import opened Base
  import opened Text
  import opened Stages
  import opened MapFile
  import opened Configuration
  import opened Reference

  /** The entries of the parameter dictionary the runners read. */
  datatype Settings = Settings(
    inFolder: string, outFolder: string, rdb: string, qcq: int, maxloose: bool, trimq: int,
    joiningMethod: string, fastqP: int, depth: int, fungus: bool,
    parameterFile: string, mappingFile: string, cores: int, config: Config)

  /** The listings of the folders the stages read: the input folder and the
      outputs of trimming, merging and quality control. */
  datatype Listings = Listings(input: seq<string>, trimmed: seq<string>, merged: seq<string>, qc: seq<string>)

  /** The six stage folders every runner computes first. */
  datatype StageFolders = StageFolders(trimmed: string, merged: string, qc: string, chi: string,
                                       otus: string, div: string)
  {
    predicate Valid() {
      IsFolder(trimmed) && IsFolder(merged) && IsFolder(qc) && IsFolder(chi) && IsFolder(otus) && IsFolder(div)
    }
  }

  /** `asfolder(out_folder + PR['F…'])` for each stage. The configured names
      already end with `/`, so each folder is the output folder and the
      configured name glued together, with no separator added between them. */
  function FoldersOf(outFolder: string, c: Config): (f: StageFolders)
    requires c.Valid()
    ensures f.Valid()
    ensures f.trimmed == outFolder + c.trimmed && f.merged == outFolder + c.merged
    ensures f.qc == outFolder + c.qualityStep && f.chi == outFolder + c.chimeraRemoved
    ensures f.otus == outFolder + c.otus && f.div == outFolder + c.diversityAnalyses
  {
    StageFolders(AsFolder(outFolder + c.trimmed), AsFolder(outFolder + c.merged),
                 AsFolder(outFolder + c.qualityStep), AsFolder(outFolder + c.chimeraRemoved),
                 AsFolder(outFolder + c.otus), AsFolder(outFolder + c.diversityAnalyses))
  }

  datatype Stage = Trimming | Merging | QualityFiltering | ChimeraRemoval | OtuPicking | Mapping | Diversity

  /** A stage as a runner calls it: the folder it reads, the folder (or
      file) it writes and its other arguments. The listing is the one the
      stage function reads from its input folder; the jobs each call hands to
      the external tools are the functions of `Stages`, `MapFile` and
      `Reference` applied to these arguments. */
  datatype Step =
    | TrimStep(input: string, folder: string, trimq: int, listing: seq<string>)
    | MergeStep(input: string, folder: string, merger: Merger, listing: seq<string>)
    | QcStep(input: string, folder: string, threshold: int, listing: seq<string>)
    | ChimeraStep(input: string, folder: string, rdb: string, listing: seq<string>)
    | PickStep(input: string, folder: string, commands: seq<OtuCommand>)
    | MapStep(input: string, file: string, listing: seq<string>)
    | DiversityStep(input: string, folder: string, command: DiversityCommand)
  {
    function Tag(): Stage {
      match this
      case TrimStep(_, _, _, _) => Trimming
      case MergeStep(_, _, _, _) => Merging
      case QcStep(_, _, _, _) => QualityFiltering
      case ChimeraStep(_, _, _, _) => ChimeraRemoval
      case PickStep(_, _, _) => OtuPicking
      case MapStep(_, _, _) => Mapping
      case DiversityStep(_, _, _) => Diversity
    }
  }

  /** The stage of each step, in order. */
  function Tags(steps: seq<Step>): (tags: seq<Stage>)
    ensures |tags| == |steps|
    ensures forall k :: 0 <= k < |steps| ==> tags[k] == steps[k].Tag()
  {
    seq(|steps|, k requires 0 <= k < |steps| => steps[k].Tag())
  }

  lemma TagsAppend(a: seq<Step>, b: seq<Step>)
    ensures Tags(a + b) == Tags(a) + Tags(b)
  {
  }

  /** The folder each step reads, in order, leaving out the mapping table,
      which writes a file rather than a folder. */
  function Inputs(steps: seq<Step>): (ins: seq<string>)
    ensures |ins| <= |steps|
  {
    if steps == [] then []
    else (if steps[0].MapStep? then [] else [steps[0].input]) + Inputs(steps[1..])
  }

  /** The folder each step writes, in order, leaving out the mapping table. */
  function Outputs(steps: seq<Step>): (outs: seq<string>)
    ensures |outs| == |Inputs(steps)|
  {
    if steps == [] then []
    else (if steps[0].MapStep? then [] else [steps[0].folder]) + Outputs(steps[1..])
  }

  lemma {:induction false} InputsAppend(a: seq<Step>, b: seq<Step>)
    ensures Inputs(a + b) == Inputs(a) + Inputs(b)
  {
    if a == [] {
      assert a + b == b;
    } else {
      assert (a + b)[1..] == a[1..] + b;
      InputsAppend(a[1..], b);
    }
  }

  lemma {:induction false} OutputsAppend(a: seq<Step>, b: seq<Step>)
    ensures Outputs(a + b) == Outputs(a) + Outputs(b)
  {
    if a == [] {
      assert a + b == b;
    } else {
      assert (a + b)[0] == a[0] && (a + b)[1..] == a[1..] + b;
      OutputsAppend(a[1..], b);
    }
  }

  lemma FoldersAppend(a: seq<Step>, b: seq<Step>)
    ensures Inputs(a + b) == Inputs(a) + Inputs(b) && Outputs(a + b) == Outputs(a) + Outputs(b)
  {
    InputsAppend(a, b);
    OutputsAppend(a, b);
  }

  /** Without a mapping table every step reads and writes a folder. */
  lemma {:induction false} FoldersWithoutMap(steps: seq<Step>)
    requires forall k :: 0 <= k < |steps| ==> !steps[k].MapStep?
    ensures |Inputs(steps)| == |steps|
    ensures forall k :: 0 <= k < |steps| ==> Inputs(steps)[k] == steps[k].input && Outputs(steps)[k] == steps[k].folder
  {
    if steps != [] {
      FoldersWithoutMap(steps[1..]);
    }
  }

  /** A single working step reads and writes its own folders. */
  lemma FoldersOfOne(step: Step)
    requires !step.MapStep?
    ensures Inputs([step]) == [step.input] && Outputs([step]) == [step.folder]
  {
    assert [step][1..] == [];
  }

  /** Four working steps, as the preprocessing runs them. */
  lemma FoldersOfFour(steps: seq<Step>, ins: seq<string>, outs: seq<string>)
    requires |steps| == 4 == |ins| == |outs|
    requires forall k :: 0 <= k < 4 ==> !steps[k].MapStep? && steps[k].input == ins[k] && steps[k].folder == outs[k]
    ensures Inputs(steps) == ins && Outputs(steps) == outs
  {
    FoldersWithoutMap(steps);
  }

  /** The first working step reads `start` and every later one reads the
      folder its predecessor wrote. */
  predicate Chained(steps: seq<Step>, start: string) {
    var outs := Outputs(steps);
    Inputs(steps) == ([start] + outs)[..|outs|]
  }

  /** Each stage that lists a folder lists the one it reads: trimming the
      input folder, merging the trimmed one, quality control the merged one
      and chimera removal the quality-control one. */
  predicate Listed(steps: seq<Step>, ls: Listings) {
    forall k :: 0 <= k < |steps| ==> ListsInput(steps[k], ls)
  }

  predicate ListsInput(step: Step, ls: Listings) {
    match step
    case TrimStep(_, _, _, listing) => listing == ls.input
    case MergeStep(_, _, _, listing) => listing == ls.trimmed
    case QcStep(_, _, _, listing) => listing == ls.merged
    case ChimeraStep(_, _, _, listing) => listing == ls.qc
    case _ => true
  }

  lemma ListedAppend(a: seq<Step>, b: seq<Step>, ls: Listings)
    requires Listed(a, ls) && Listed(b, ls)
    ensures Listed(a + b, ls)
  {
    forall k | 0 <= k < |a + b|
      ensures (a + b)[k] == if k < |a| then a[k] else b[k - |a|]
    {
    }
  }

  datatype Failure =
      /** `asfolder("")` on an empty `-i` */
    | EmptyInputFolder
      /** `raise("error method")` */
    | UnknownJoiningMethod(joiningMethod: string)
      /** reading `create_mapping_file` when the script never bound it */
    | MappingFlagUnbound

  /** The stages executed, in order, and the error that ended the run early. */
  datatype Run = Run(steps: seq<Step>, failure: Option<Failure>)


  predicate KnownMethod(joiningMethod: string) {
    joiningMethod == "fastq-join" || joiningMethod == "bbmerge"
  }

  /** What the script does with each stage beyond running it in order: OTU
      picking never passes the fungal flag, so it always picks against a
      reference and filters the result, and outside SILVA that reference is
      GreenGenes; the diversity analysis drops the tree exactly for a fungal
      run; the mapping table lists `mapFolder` and goes to the mapping file. */
  predicate Sound(s: Settings, step: Step, mapFolder: string, mapListing: seq<string>) {
    match step
    case PickStep(_, _, commands) =>
      && |commands| == 2 && commands[0].PickOpenReference? && commands[1].FilterOtus?
      && commands[0].reference == Some(if s.rdb == "silva" then s.config.silvaReferenceSeqs else s.config.ggReferenceSeqs)
    case DiversityStep(_, _, command) => command.tree.None? <==> s.fungus
    case MapStep(input, file, listing) => input == mapFolder && file == s.mappingFile && listing == mapListing
    case _ => true
  }

  predicate AllSound(s: Settings, steps: seq<Step>, mapFolder: string, mapListing: seq<string>) {
    forall k :: 0 <= k < |steps| ==> Sound(s, steps[k], mapFolder, mapListing)
  }

  lemma AllSoundAppend(s: Settings, a: seq<Step>, b: seq<Step>, mapFolder: string, mapListing: seq<string>)
    requires AllSound(s, a, mapFolder, mapListing) && AllSound(s, b, mapFolder, mapListing)
    ensures AllSound(s, a + b, mapFolder, mapListing)
  {
    forall k | 0 <= k < |a + b|
      ensures Sound(s, (a + b)[k], mapFolder, mapListing)
    {
      if k < |a| {
        assert (a + b)[k] == a[k];
      } else {
        assert (a + b)[k] == b[k - |a|];
      }
    }
  }

  /** The merge stage for the chosen joining method, or none for an unknown
      one. */
  function MergeFor(s: Settings, f: StageFolders, ls: Listings): (m: Option<Step>)
    requires f.Valid()
    ensures m.Some? <==> KnownMethod(s.joiningMethod)
    ensures m.Some? ==> m.value.Tag() == Merging
    ensures m.Some? ==> m.value.input == f.trimmed && m.value.folder == f.merged && m.value.listing == ls.trimmed
  {
    if s.joiningMethod == "fastq-join" then
      Some(MergeStep(f.trimmed, f.merged, FastqJoin(s.fastqP), ls.trimmed))
    else if s.joiningMethod == "bbmerge" then
      Some(MergeStep(f.trimmed, f.merged, BBMerge(s.maxloose), ls.trimmed))
    else None
  }

  /** OTU picking as every runner calls it: without the fungal flag. */
  function PickFor(s: Settings, chi: string, f: StageFolders): (step: Step)
    requires |chi| > 0 && f.Valid()
    ensures step.Tag() == OtuPicking
    ensures Inputs([step]) == [chi] && Outputs([step]) == [f.otus]
    ensures forall mapFolder, mapListing :: Sound(s, step, mapFolder, mapListing)
  {
    PickOtusVariants(chi, f.otus, s.rdb, false, s.parameterFile, s.config, s.cores);
    FoldersOfOne(PickStep(chi, f.otus, PickOtus(chi, f.otus, s.rdb, false, s.parameterFile, s.config, s.cores)));
    PickStep(chi, f.otus, PickOtus(chi, f.otus, s.rdb, false, s.parameterFile, s.config, s.cores))
  }

  /** `if create_mapping_file: create_map(…)` then `corediv(…)`, after `done`. */
  function MapAndDiversity(s: Settings, done: seq<Step>, createMap: Option<bool>,
                           mapFolder: string, mapListing: seq<string>, f: StageFolders): (run: Run)
    requires |mapFolder| > 0 && f.Valid()
    ensures createMap.None? ==> run == Run(done, Some(MappingFlagUnbound))
    ensures createMap.Some? ==> run.failure == None
    ensures createMap.Some? ==>
      Inputs(run.steps) == Inputs(done) + [f.otus] && Outputs(run.steps) == Outputs(done) + [f.div]
  {
    match createMap
    case None => Run(done, Some(MappingFlagUnbound))
    case Some(create) =>
      var mapping := if create then [MapStep(mapFolder, s.mappingFile, mapListing)] else [];
      var diversity := [DiversityStep(f.otus, f.div, CoreDiv(f.otus, f.div, s.mappingFile, s.depth, s.fungus))];
      FoldersAppend(done + mapping, diversity);
      FoldersAppend(done, mapping);
      FoldersOfOne(diversity[0]);
      assert Inputs(mapping) == [] && Outputs(mapping) == [] by {
        if create { assert mapping[1..] == []; }
      }
      Run(done + mapping + diversity, None)
  }

  /** Mapping and diversity list no folder of their own. */
  lemma MapAndDiversityListed(s: Settings, done: seq<Step>, createMap: Option<bool>,
                              mapFolder: string, mapListing: seq<string>, f: StageFolders, ls: Listings)
    requires |mapFolder| > 0 && f.Valid() && Listed(done, ls)
    ensures Listed(MapAndDiversity(s, done, createMap, mapFolder, mapListing, f).steps, ls)
  {
    if createMap.Some? {
      var mapping := if createMap.value then [MapStep(mapFolder, s.mappingFile, mapListing)] else [];
      var diversity := [DiversityStep(f.otus, f.div, CoreDiv(f.otus, f.div, s.mappingFile, s.depth, s.fungus))];
      assert Listed(mapping, ls) && Listed(diversity, ls);
      ListedAppend(done, mapping, ls);
      ListedAppend(done + mapping, diversity, ls);
    }
  }

  /** With the flag bound, the mapping stage follows `done` exactly when the
      flag is set, and the diversity analysis comes last. */
  lemma MapAndDiversityStages(s: Settings, done: seq<Step>, create: bool,
                              mapFolder: string, mapListing: seq<string>, f: StageFolders)
    requires |mapFolder| > 0 && f.Valid()
    ensures Tags(MapAndDiversity(s, done, Some(create), mapFolder, mapListing, f).steps)
              == Tags(done) + (if create then [Mapping] else []) + [Diversity]
  {
    var mapping := if create then [MapStep(mapFolder, s.mappingFile, mapListing)] else [];
    var diversity := [DiversityStep(f.otus, f.div, CoreDiv(f.otus, f.div, s.mappingFile, s.depth, s.fungus))];
    TagsAppend(done + mapping, diversity);
    TagsAppend(done, mapping);
    assert Tags(mapping) == if create then [Mapping] else [];
    assert Tags(diversity) == [Diversity];
  }

  /** Trimming, merging, quality control and chimera removal, shared by the
      first two runners. Each stage reads the folder the one before it wrote,
      starting from the input folder, and lists it. */
  function Preprocess(s: Settings, f: StageFolders, ls: Listings): (run: Run)
    requires f.Valid() && s.inFolder != ""
    ensures run.failure == None <==> KnownMethod(s.joiningMethod)
    ensures run.failure == None ==> Tags(run.steps) == [Trimming, Merging, QualityFiltering, ChimeraRemoval]
    ensures run.failure != None ==>
      Tags(run.steps) == [Trimming] && run.failure == Some(UnknownJoiningMethod(s.joiningMethod))
    ensures forall mapFolder, mapListing :: AllSound(s, run.steps, mapFolder, mapListing)
    ensures run.failure == None ==>
      Inputs(run.steps) == [s.inFolder, f.trimmed, f.merged, f.qc] && Outputs(run.steps) == [f.trimmed, f.merged, f.qc, f.chi]
    ensures run.failure != None ==> Inputs(run.steps) == [s.inFolder] && Outputs(run.steps) == [f.trimmed]
    ensures Listed(run.steps, ls)
  {
    var trim := TrimStep(s.inFolder, f.trimmed, s.trimq, ls.input);
    match MergeFor(s, f, ls)
    case None =>
      FoldersOfOne(trim);
      Run([trim], Some(UnknownJoiningMethod(s.joiningMethod)))
    case Some(merge) =>
      var qc := QcStep(f.merged, f.qc, s.qcq, ls.merged);
      var chimera := ChimeraStep(f.qc, f.chi, s.rdb, ls.qc);
      FoldersOfFour([trim, merge, qc, chimera], [s.inFolder, f.trimmed, f.merged, f.qc],
                    [f.trimmed, f.merged, f.qc, f.chi]);
      Run([trim, merge, qc, chimera], None)
  }

  /** `full_analysis`: all stages; the map is built from the quality-control
      folder. */
  function FullAnalysis(s: Settings, createMap: Option<bool>, ls: Listings): Run
    requires s.config.Valid()
  {
    var f := FoldersOf(s.outFolder, s.config);
    if s.inFolder == "" then Run([], Some(EmptyInputFolder))
    else
      var pre := Preprocess(s, f, ls);
      if pre.failure.Some? then pre
      else MapAndDiversity(s, pre.steps + [PickFor(s, f.chi, f)], createMap, f.qc, ls.qc, f)
  }

  /** `stop_at_chimera_removal`: the first four stages only. With a known
      joining method it writes exactly the trimmed, merged, quality-control
      and chimera-free folders. */
  function StopAtChimeraRemoval(s: Settings, ls: Listings): (run: Run)
    requires s.config.Valid()
    ensures s.inFolder == "" ==> run == Run([], Some(EmptyInputFolder))
    ensures s.inFolder != "" ==> run == Preprocess(s, FoldersOf(s.outFolder, s.config), ls)
    ensures var f := FoldersOf(s.outFolder, s.config);
      s.inFolder != "" && KnownMethod(s.joiningMethod) ==>
        && run.failure == None
        && Tags(run.steps) == [Trimming, Merging, QualityFiltering, ChimeraRemoval]
        && Outputs(run.steps) == [f.trimmed, f.merged, f.qc, f.chi]
  {
    var f := FoldersOf(s.outFolder, s.config);
    if s.inFolder == "" then Run([], Some(EmptyInputFolder)) else Preprocess(s, f, ls)
  }

  /** `start_otu_pickng`: the input folder holds chimera-free `.fasta` files;
      the map is built from it. */
  function StartOtuPicking(s: Settings, createMap: Option<bool>, ls: Listings): Run
    requires s.config.Valid()
  {
    var f := FoldersOf(s.outFolder, s.config);
    if s.inFolder == "" then Run([], Some(EmptyInputFolder))
    else
      var chi := AsFolder(s.inFolder);
      MapAndDiversity(s, [PickFor(s, chi, f)], createMap, chi, ls.input, f)
  }

  /** `start_diversity_analysis`: the input folder holds picked OTUs. */
  function StartDiversityAnalysis(s: Settings): (run: Run)
    requires s.config.Valid()
    ensures s.inFolder == "" ==> run == Run([], Some(EmptyInputFolder))
    ensures s.inFolder != "" ==> Tags(run.steps) == [Diversity] && run.failure == None
    ensures s.inFolder != "" ==>
      Inputs(run.steps) == [s.inFolder] && Outputs(run.steps) == [FoldersOf(s.outFolder, s.config).div]
    ensures forall mapFolder, mapListing :: AllSound(s, run.steps, mapFolder, mapListing)
  {
    var f := FoldersOf(s.outFolder, s.config);
    if s.inFolder == "" then Run([], Some(EmptyInputFolder))
    else
      var cmd := CoreDiv(s.inFolder, f.div, s.mappingFile, s.depth, s.fungus);
      CoreDivReadsPickedTable(f.chi, s.inFolder, f.div, s.mappingFile, s.depth, s.rdb, s.fungus,
                              s.parameterFile, s.config, s.cores);
      FoldersOfOne(DiversityStep(s.inFolder, f.div, cmd));
      Run([DiversityStep(s.inFolder, f.div, cmd)], None)
  }

  /** The four runners the script can call. */
  datatype Runner = OtuPickingOnward | DiversityOnly | UpToChimeraRemoval | WholeAnalysis

  /** The script's choice of runner: `-b otu_picking`, then `-b
      diversity_analysis`, then `-s chimera_removal`, then the full
      analysis. Any other value of `-b` or `-s` is ignored. */
  function SelectRunner(beginwith: Option<string>, stopAt: Option<string>): (r: Runner)
    ensures r == OtuPickingOnward <==> beginwith == Some("otu_picking")
    ensures r == DiversityOnly <==> beginwith == Some("diversity_analysis")
    ensures r == UpToChimeraRemoval <==>
      beginwith != Some("otu_picking") && beginwith != Some("diversity_analysis") && stopAt == Some("chimera_removal")
  {
    if beginwith == Some("otu_picking") then OtuPickingOnward
    else if beginwith == Some("diversity_analysis") then DiversityOnly
    else if stopAt == Some("chimera_removal") then UpToChimeraRemoval
    else WholeAnalysis
  }

  /** The chosen runner applied to the parameters. `createMap` is the
      module-level flag: `None` while it is unbound. */
  function Dispatch(s: Settings, runner: Runner, createMap: Option<bool>, ls: Listings): Run
    requires s.config.Valid()
  {
    match runner
    case OtuPickingOnward => StartOtuPicking(s, createMap, ls)
    case DiversityOnly => StartDiversityAnalysis(s)
    case UpToChimeraRemoval => StopAtChimeraRemoval(s, ls)
    case WholeAnalysis => FullAnalysis(s, createMap, ls)
  }

  /** Trimming, merging, quality control and chimera removal, executed one
      after the other; an unknown joining method stops the run after
      trimming. */
  method Preprocessing(s: Settings, f: StageFolders, ls: Listings) returns (run: Run)
    requires f.Valid() && s.inFolder != ""
    ensures run == Preprocess(s, f, ls)
  {
    var steps := [TrimStep(s.inFolder, f.trimmed, s.trimq, ls.input)];
    var merge := MergeFor(s, f, ls);
    if merge.None? {
      return Run(steps, Some(UnknownJoiningMethod(s.joiningMethod)));
    }
    steps := steps + [merge.value];
    steps := steps + [QcStep(f.merged, f.qc, s.qcq, ls.merged)];
    steps := steps + [ChimeraStep(f.qc, f.chi, s.rdb, ls.qc)];
    run := Run(steps, None);
  }

  /** The mapping file, when the flag says so, then the diversity analysis,
      after the stages already `done`; an unbound flag stops the run. */
  method MappingAndDiversity(s: Settings, done: seq<Step>, createMap: Option<bool>,
                             mapFolder: string, mapListing: seq<string>, f: StageFolders)
    returns (run: Run)
    requires |mapFolder| > 0 && f.Valid()
    ensures run == MapAndDiversity(s, done, createMap, mapFolder, mapListing, f)
  {
    if createMap.None? {
      return Run(done, Some(MappingFlagUnbound));
    }
    var steps := done;
    if createMap.value {
      steps := steps + [MapStep(mapFolder, s.mappingFile, mapListing)];
    }
    steps := steps + [DiversityStep(f.otus, f.div, CoreDiv(f.otus, f.div, s.mappingFile, s.depth, s.fungus))];
    run := Run(steps, None);
  }

  /** The dispatch at lines 733-762 and the runner it calls, executed stage
      by stage: the stages are appended in the order the runner calls them,
      and the run stops at the first error. */
  method Execute(s: Settings, beginwith: Option<string>, stopAt: Option<string>, createMap: Option<bool>, ls: Listings)
    returns (run: Run)
    requires s.config.Valid()
    ensures run == Dispatch(s, SelectRunner(beginwith, stopAt), createMap, ls)
  {
    var f := FoldersOf(s.outFolder, s.config);
    if s.inFolder == "" {
      return Run([], Some(EmptyInputFolder));
    }
    if beginwith == Some("otu_picking") {
      var chi := AsFolder(s.inFolder);
      run := MappingAndDiversity(s, [PickFor(s, chi, f)], createMap, chi, ls.input, f);
    } else if beginwith == Some("diversity_analysis") {
      var cmd := CoreDiv(s.inFolder, f.div, s.mappingFile, s.depth, s.fungus);
      run := Run([DiversityStep(s.inFolder, f.div, cmd)], None);
    } else {
      run := Preprocessing(s, f, ls);
      if run.failure.Some? || stopAt == Some("chimera_removal") {
        return;
      }
      run := MappingAndDiversity(s, run.steps + [PickFor(s, f.chi, f)], createMap, f.qc, ls.qc, f);
    }
  }

  // ---------------------------------------------------------------------------
  // Properties
  // ---------------------------------------------------------------------------

  /** The stages each runner goes through when nothing fails. */
  function Expected(runner: Runner, create: bool): seq<Stage> {
    var mapping := if create then [Mapping] else [];
    match runner
    case OtuPickingOnward => [OtuPicking] + mapping + [Diversity]
    case DiversityOnly => [Diversity]
    case UpToChimeraRemoval => [Trimming, Merging, QualityFiltering, ChimeraRemoval]
    case WholeAnalysis => [Trimming, Merging, QualityFiltering, ChimeraRemoval, OtuPicking] + mapping + [Diversity]
  }

  /** Mapping and diversity add only stages that keep `Sound`. */
  lemma MapAndDiversitySound(s: Settings, done: seq<Step>, createMap: Option<bool>,
                             mapFolder: string, mapListing: seq<string>, f: StageFolders)
    requires |mapFolder| > 0 && f.Valid()
    requires AllSound(s, done, mapFolder, mapListing)
    ensures AllSound(s, MapAndDiversity(s, done, createMap, mapFolder, mapListing, f).steps, mapFolder, mapListing)
  {
    if createMap.Some? {
      var mapping := if createMap.value then [MapStep(mapFolder, s.mappingFile, mapListing)] else [];
      var diversity := [DiversityStep(f.otus, f.div, CoreDiv(f.otus, f.div, s.mappingFile, s.depth, s.fungus))];
      CoreDivReadsPickedTable(f.chi, f.otus, f.div, s.mappingFile, s.depth, s.rdb, s.fungus,
                              s.parameterFile, s.config, s.cores);
      assert AllSound(s, mapping, mapFolder, mapListing);
      assert AllSound(s, diversity, mapFolder, mapListing);
      AllSoundAppend(s, done, mapping, mapFolder, mapListing);
      AllSoundAppend(s, done + mapping, diversity, mapFolder, mapListing);
    }
  }

  /** Where `full_analysis` stops early: before any stage for an empty
      input folder, after trimming for an unknown joining method, and after
      OTU picking with the flag unbound. */
  lemma FullAnalysisStops(s: Settings, createMap: Option<bool>, ls: Listings)
    requires s.config.Valid()
    ensures var run := FullAnalysis(s, createMap, ls);
      && (s.inFolder == "" ==> run == Run([], Some(EmptyInputFolder)))
      && (s.inFolder != "" && !KnownMethod(s.joiningMethod) ==>
            Tags(run.steps) == [Trimming] && run.failure == Some(UnknownJoiningMethod(s.joiningMethod)))
      && (s.inFolder != "" && KnownMethod(s.joiningMethod) && createMap.None? ==>
            Tags(run.steps) == [Trimming, Merging, QualityFiltering, ChimeraRemoval, OtuPicking]
            && run.failure == Some(MappingFlagUnbound))
  {
    if s.inFolder != "" && KnownMethod(s.joiningMethod) && createMap.None? {
      FullAnalysisUnbound(s, ls);
    }
  }

  lemma FullAnalysisUnbound(s: Settings, ls: Listings)
    requires s.config.Valid() && s.inFolder != "" && KnownMethod(s.joiningMethod)
    ensures var run := FullAnalysis(s, None, ls);
      Tags(run.steps) == [Trimming, Merging, QualityFiltering, ChimeraRemoval, OtuPicking]
      && run.failure == Some(MappingFlagUnbound)
  {
    var f := FoldersOf(s.outFolder, s.config);
    var pre := Preprocess(s, f, ls);
    TagsAppend(pre.steps, [PickFor(s, f.chi, f)]);
  }

  /** A `full_analysis` with a non-empty input folder, a known joining
      method and the flag bound runs every stage, mapping only when the flag
      is set. */
  lemma FullAnalysisStages(s: Settings, create: bool, ls: Listings)
    requires s.config.Valid() && s.inFolder != "" && KnownMethod(s.joiningMethod)
    ensures var run := FullAnalysis(s, Some(create), ls);
      Tags(run.steps) == Expected(WholeAnalysis, create) && run.failure == None
  {
    var f := FoldersOf(s.outFolder, s.config);
    var pre := Preprocess(s, f, ls);
    TagsAppend(pre.steps, [PickFor(s, f.chi, f)]);
    MapAndDiversityStages(s, pre.steps + [PickFor(s, f.chi, f)], create, f.qc, ls.qc, f);
  }

  /** Every stage of `full_analysis` keeps `Sound`, the map listing the
      quality-control folder. */
  lemma FullAnalysisSound(s: Settings, createMap: Option<bool>, ls: Listings)
    requires s.config.Valid()
    ensures var f := FoldersOf(s.outFolder, s.config);
      AllSound(s, FullAnalysis(s, createMap, ls).steps, f.qc, ls.qc)
  {
    var f := FoldersOf(s.outFolder, s.config);
    if s.inFolder != "" {
      var pre := Preprocess(s, f, ls);
      if pre.failure.None? {
        assert AllSound(s, [PickFor(s, f.chi, f)], f.qc, ls.qc);
        AllSoundAppend(s, pre.steps, [PickFor(s, f.chi, f)], f.qc, ls.qc);
        MapAndDiversitySound(s, pre.steps + [PickFor(s, f.chi, f)], createMap, f.qc, ls.qc, f);
      }
    }
  }

  /** The stages of `start_otu_pickng`: none for an empty input folder,
      picking alone with the flag unbound, and otherwise picking, mapping
      when the flag is set, and the diversity analysis. */
  lemma StartOtuPickingStages(s: Settings, createMap: Option<bool>, ls: Listings)
    requires s.config.Valid()
    ensures var run := StartOtuPicking(s, createMap, ls);
      && (s.inFolder == "" ==> run == Run([], Some(EmptyInputFolder)))
      && (s.inFolder != "" && createMap.None? ==>
            Tags(run.steps) == [OtuPicking] && run.failure == Some(MappingFlagUnbound))
      && (s.inFolder != "" && createMap.Some? ==>
            Tags(run.steps) == Expected(OtuPickingOnward, createMap.value) && run.failure == None)
  {
    if s.inFolder != "" {
      var f := FoldersOf(s.outFolder, s.config);
      var chi := AsFolder(s.inFolder);
      assert Tags([PickFor(s, chi, f)]) == [OtuPicking];
      if createMap.Some? {
        MapAndDiversityStages(s, [PickFor(s, chi, f)], createMap.value, chi, ls.input, f);
      }
    }
  }

  /** Every stage of `start_otu_pickng` keeps `Sound`, the map listing the
      input folder. */
  lemma StartOtuPickingSound(s: Settings, createMap: Option<bool>, ls: Listings)
    requires s.config.Valid() && s.inFolder != ""
    ensures AllSound(s, StartOtuPicking(s, createMap, ls).steps, AsFolder(s.inFolder), ls.input)
  {
    var f := FoldersOf(s.outFolder, s.config);
    var chi := AsFolder(s.inFolder);
    assert AllSound(s, [PickFor(s, chi, f)], chi, ls.input);
    MapAndDiversitySound(s, [PickFor(s, chi, f)], createMap, chi, ls.input, f);
  }

  /** With a non-empty input folder, a known joining method and the flag
      bound, every runner completes and runs exactly its stages, in order;
      the mapping stage runs exactly when the flag is set. Each stage reads
      the folder the one before it wrote, and the runner writes all its
      folders. */
  lemma RunnerStages(s: Settings, runner: Runner, create: bool, ls: Listings)
    requires s.config.Valid() && s.inFolder != "" && KnownMethod(s.joiningMethod)
    ensures var run := Dispatch(s, runner, Some(create), ls);
      run.failure == None && Tags(run.steps) == Expected(runner, create)
    ensures var run := Dispatch(s, runner, Some(create), ls);
      Outputs(run.steps) == Writes(runner, FoldersOf(s.outFolder, s.config)) && Chained(run.steps, Start(runner, s))
  {
    RunsAreChained(s, runner, Some(create), ls);
    match runner
    case WholeAnalysis => FullAnalysisStages(s, create, ls);
    case OtuPickingOnward => StartOtuPickingStages(s, Some(create), ls);
    case DiversityOnly =>
    case UpToChimeraRemoval =>
  }

  /** An empty `-i` fails every runner before any stage. */
  lemma EmptyInputRunsNothing(s: Settings, runner: Runner, createMap: Option<bool>, ls: Listings)
    requires s.config.Valid() && s.inFolder == ""
    ensures Dispatch(s, runner, createMap, ls) == Run([], Some(EmptyInputFolder))
  {
    FullAnalysisStops(s, createMap, ls);
    StartOtuPickingStages(s, createMap, ls);
  }

  /** An unknown joining method stops both runners that merge right after
      trimming, before quality control; the other two do not merge. */
  lemma UnknownMethodStopsAfterTrim(s: Settings, runner: Runner, createMap: Option<bool>, ls: Listings)
    requires s.config.Valid() && s.inFolder != "" && !KnownMethod(s.joiningMethod)
    ensures var run := Dispatch(s, runner, createMap, ls);
      runner == UpToChimeraRemoval || runner == WholeAnalysis ==>
        Tags(run.steps) == [Trimming] && run.failure == Some(UnknownJoiningMethod(s.joiningMethod))
  {
    FullAnalysisStops(s, createMap, ls);
  }

  /** Every stage of every run keeps the promises of `Sound`: picking is
      never fungal, the tree follows the fungal flag, and the mapping table
      lists the quality-control folder in a full analysis and the input
      folder when starting at OTU picking. */
  lemma RunsAreSound(s: Settings, runner: Runner, createMap: Option<bool>, ls: Listings)
    requires s.config.Valid() && s.inFolder != ""
    ensures var run := Dispatch(s, runner, createMap, ls);
      var f := FoldersOf(s.outFolder, s.config);
      AllSound(s, run.steps, if runner == OtuPickingOnward then AsFolder(s.inFolder) else f.qc,
               if runner == OtuPickingOnward then ls.input else ls.qc)
  {
    match runner
    case WholeAnalysis => FullAnalysisSound(s, createMap, ls);
    case OtuPickingOnward => StartOtuPickingSound(s, createMap, ls);
    case DiversityOnly =>
    case UpToChimeraRemoval =>
  }

  /** The folder each runner's first working stage reads: the `-i` folder,
      which `start_otu_pickng` passes through `asfolder` first. */
  function Start(runner: Runner, s: Settings): string
    requires s.inFolder != ""
  {
    if runner == OtuPickingOnward then AsFolder(s.inFolder) else s.inFolder
  }

  /** The folders each runner writes, in the order it writes them. */
  function Writes(runner: Runner, f: StageFolders): seq<string> {
    match runner
    case OtuPickingOnward => [f.otus, f.div]
    case DiversityOnly => [f.div]
    case UpToChimeraRemoval => [f.trimmed, f.merged, f.qc, f.chi]
    case WholeAnalysis => [f.trimmed, f.merged, f.qc, f.chi, f.otus, f.div]
  }

  /** A run is a chain of folders from `start` through `writes`: its first
      stage reads `start`, each later stage reads the folder the one before
      it wrote, and the stages write a prefix of `writes`, all of it when the
      run ends without error. Each stage that lists a folder lists the one it
      reads. */
  predicate Follows(run: Run, start: string, writes: seq<string>, ls: Listings) {
    var outs := Outputs(run.steps);
    && Chained(run.steps, start)
    && Listed(run.steps, ls)
    && |outs| <= |writes| && outs == writes[..|outs|]
    && (run.failure == None ==> outs == writes)
  }

  lemma FollowsOf(run: Run, start: string, writes: seq<string>, ls: Listings, n: nat)
    requires n <= |writes| && (run.failure == None ==> n == |writes|)
    requires Inputs(run.steps) == ([start] + writes)[..n] && Outputs(run.steps) == writes[..n]
    requires Listed(run.steps, ls)
    ensures Follows(run, start, writes, ls)
  {
    assert ([start] + writes)[..n] == ([start] + writes[..n])[..n];
  }

  lemma StopAtChimeraRemovalChained(s: Settings, ls: Listings)
    requires s.config.Valid() && s.inFolder != ""
    ensures Follows(StopAtChimeraRemoval(s, ls), s.inFolder, Writes(UpToChimeraRemoval, FoldersOf(s.outFolder, s.config)), ls)
  {
    var f := FoldersOf(s.outFolder, s.config);
    var run := Preprocess(s, f, ls);
    FollowsOf(run, s.inFolder, Writes(UpToChimeraRemoval, f), ls, if run.failure == None then 4 else 1);
  }

  lemma StartDiversityAnalysisChained(s: Settings, ls: Listings)
    requires s.config.Valid() && s.inFolder != ""
    ensures Follows(StartDiversityAnalysis(s), s.inFolder, Writes(DiversityOnly, FoldersOf(s.outFolder, s.config)), ls)
  {
    var run := StartDiversityAnalysis(s);
    assert Listed(run.steps, ls);
    FollowsOf(run, s.inFolder, Writes(DiversityOnly, FoldersOf(s.outFolder, s.config)), ls, 1);
  }

  /** The preprocessing and OTU picking of `full_analysis` chain the input
      folder through the chimera-free folder into the OTU folder. */
  lemma PreprocessThenPick(s: Settings, f: StageFolders, ls: Listings)
    requires f.Valid() && s.inFolder != "" && KnownMethod(s.joiningMethod)
    ensures var done := Preprocess(s, f, ls).steps + [PickFor(s, f.chi, f)];
      && Inputs(done) == [s.inFolder, f.trimmed, f.merged, f.qc, f.chi]
      && Outputs(done) == [f.trimmed, f.merged, f.qc, f.chi, f.otus]
      && Listed(done, ls)
  {
    var pre := Preprocess(s, f, ls);
    var pick := PickFor(s, f.chi, f);
    FoldersAppend(pre.steps, [pick]);
    assert Listed([pick], ls);
    ListedAppend(pre.steps, [pick], ls);
  }

  lemma FullAnalysisChained(s: Settings, createMap: Option<bool>, ls: Listings)
    requires s.config.Valid() && s.inFolder != ""
    ensures Follows(FullAnalysis(s, createMap, ls), s.inFolder, Writes(WholeAnalysis, FoldersOf(s.outFolder, s.config)), ls)
  {
    var f := FoldersOf(s.outFolder, s.config);
    if KnownMethod(s.joiningMethod) {
      PickedChained(s, f, createMap, ls);
    } else {
      var pre := Preprocess(s, f, ls);
      FollowsOf(pre, s.inFolder, Writes(WholeAnalysis, f), ls, 1);
    }
  }

  lemma PickedChained(s: Settings, f: StageFolders, createMap: Option<bool>, ls: Listings)
    requires s.config.Valid() && s.inFolder != "" && KnownMethod(s.joiningMethod)
    requires f == FoldersOf(s.outFolder, s.config)
    ensures Follows(FullAnalysis(s, createMap, ls), s.inFolder, Writes(WholeAnalysis, f), ls)
  {
    var done := Preprocess(s, f, ls).steps + [PickFor(s, f.chi, f)];
    PreprocessThenPick(s, f, ls);
    var run := MapAndDiversity(s, done, createMap, f.qc, ls.qc, f);
    MapAndDiversityListed(s, done, createMap, f.qc, ls.qc, f, ls);
    FollowsOf(run, s.inFolder, Writes(WholeAnalysis, f), ls, if createMap.Some? then 6 else 5);
  }

  lemma StartOtuPickingChained(s: Settings, createMap: Option<bool>, ls: Listings)
    requires s.config.Valid() && s.inFolder != ""
    ensures Follows(StartOtuPicking(s, createMap, ls), AsFolder(s.inFolder),
                    Writes(OtuPickingOnward, FoldersOf(s.outFolder, s.config)), ls)
  {
    var f := FoldersOf(s.outFolder, s.config);
    var chi := AsFolder(s.inFolder);
    var pick := PickFor(s, chi, f);
    assert Listed([pick], ls);
    var run := MapAndDiversity(s, [pick], createMap, chi, ls.input, f);
    MapAndDiversityListed(s, [pick], createMap, chi, ls.input, f, ls);
    assert StartOtuPicking(s, createMap, ls) == run;
    FollowsOf(run, chi, Writes(OtuPickingOnward, f), ls, if createMap.Some? then 2 else 1);
  }

  /** Every run is a chain of folders from the input folder through the
      folders its runner writes, stopping early only on an error. */
  lemma RunsAreChained(s: Settings, runner: Runner, createMap: Option<bool>, ls: Listings)
    requires s.config.Valid() && s.inFolder != ""
    ensures Follows(Dispatch(s, runner, createMap, ls), Start(runner, s),
                    Writes(runner, FoldersOf(s.outFolder, s.config)), ls)
  {
    match runner
    case WholeAnalysis => FullAnalysisChained(s, createMap, ls);
    case OtuPickingOnward => StartOtuPickingChained(s, createMap, ls);
    case DiversityOnly => StartDiversityAnalysisChained(s, ls);
    case UpToChimeraRemoval => StopAtChimeraRemovalChained(s, ls);
  }

  /** The mapping table a run writes lists the folder it is built from: one
      row per file, in listing order, with the file's name and sample id;
      that folder is the quality-control folder in a full analysis and the
      input folder when starting at OTU picking. */
  lemma MappingTables(s: Settings, runner: Runner, createMap: Option<bool>, ls: Listings)
    requires s.config.Valid() && s.inFolder != ""
    ensures var run := Dispatch(s, runner, createMap, ls);
      var mapListing := if runner == OtuPickingOnward then ls.input else ls.qc;
      forall k :: 0 <= k < |run.steps| && run.steps[k].MapStep? ==>
        var step := run.steps[k];
        && |step.input| > 0 && step.file == s.mappingFile
        && var table := CreateMap(step.input, step.listing);
           && |table| == |mapListing| + 1 && table[0] == Columns
           && forall i :: 0 <= i < |mapListing| ==>
                table[i + 1][4] == mapListing[i] && table[i + 1][0] == SampleIdOf(mapListing[i])
  {
    RunsAreSound(s, runner, createMap, ls);
    var run := Dispatch(s, runner, createMap, ls);
    var f := FoldersOf(s.outFolder, s.config);
    var mapFolder := if runner == OtuPickingOnward then AsFolder(s.inFolder) else f.qc;
    var mapListing := if runner == OtuPickingOnward then ls.input else ls.qc;
    forall k | 0 <= k < |run.steps| && run.steps[k].MapStep?
      ensures run.steps[k].input == mapFolder && run.steps[k].listing == mapListing
    {
      assert Sound(s, run.steps[k], mapFolder, mapListing);
    }
  }

  /** The merge stage runs the merger chosen by `-j`, with `-d` for
      fastq-join and `-m` for bbmerge, on the trimmed pairs, writing one file
      per pair into the merge folder. */
  lemma MergerChoice(s: Settings, f: StageFolders, ls: Listings)
    requires f.Valid()
    ensures var m := MergeFor(s, f, ls);
      m.Some? ==>
        var jobs := MergeJobs(m.value.input, m.value.folder, m.value.merger, m.value.listing);
        && m.value.input == f.trimmed && m.value.folder == f.merged
        && (s.joiningMethod == "fastq-join" ==> jobs == MergeFolderFastq(f.trimmed, f.merged, s.fastqP, ls.trimmed))
        && (s.joiningMethod == "bbmerge" ==> jobs == MergeFolderBB(f.trimmed, f.merged, s.maxloose, ls.trimmed))
        && |jobs| == |Forward(ls.trimmed)|
        && forall k :: 0 <= k < |jobs| ==>
             && jobs[k].merger == (if s.joiningMethod == "fastq-join" then FastqJoin(s.fastqP) else BBMerge(s.maxloose))
             && jobs[k].out == f.merged + MergedName(Forward(ls.trimmed)[k])
  {
    var m := MergeFor(s, f, ls);
    if m.Some? {
      MergeNames(f.trimmed, f.merged, m.value.merger, ls.trimmed);
    }
  }
}
