/**
 * The file-name rules of the four per-file stages: trimming (`trimfolder`,
 * qiime_analysis.py:153-192), merging (`mergefolderbb` 195-243 and
 * `mergefolderfastq` 245-290), quality control (`qualitycontrol` 293-328) and
 * chimera removal (`removechimera` 331-374). Each stage sorts the listing of
 * its input folder and derives one job per file (or per read pair); a job is
 * the record of the arguments its external command receives.
 */
module Stages {
  import opened Text
  import opened Listing

  const R1: string := "_R1_"
  const R2: string := "_R2_"
  /** The Illumina lane and read suffix the merge stage drops. */
  const LaneSuffix: string := "_L001_R1_001"

  /** `[x for x in files if "_R1_" in x]`: each forward-read file, as often as
      it occurs, and nothing else; a sorted listing stays sorted. */
  function R1Files(files: seq<string>): (ins1: seq<string>)
    ensures forall x :: multiset(ins1)[x] == if Contains(x, R1) then multiset(files)[x] else 0
    ensures Sorted(files) ==> Sorted(ins1)
    decreases |files|
  {
    if files == [] then []
    else
      var rest := R1Files(files[1..]);
      assert files == [files[0]] + files[1..];
      if Contains(files[0], R1) then
        assert Sorted(files) ==> Sorted([files[0]] + rest) by {
          if Sorted(files) {
            assert Below(files[0], files[1..]);
            assert multiset(rest) <= multiset(files[1..]);
            BelowOfMultiset(files[0], files[1..], rest);
          }
        }
        [files[0]] + rest
      else rest
  }

  /** `ins1`: the forward-read files of a folder, from its sorted listing. */
  function Forward(listing: seq<string>): seq<string> {
    R1Files(Sort(listing))
  }

  /** The reverse-read partner of a forward-read file. */
  function Mate(name: string): string {
    ReplaceAll(name, R1, R2)
  }

  /** `ins2 = [x.replace("_R1_", "_R2_") for x in ins1]`. */
  function Mates(ins1: seq<string>): seq<string> {
    seq(|ins1|, i requires 0 <= i < |ins1| => Mate(ins1[i]))
  }

  /** The merged file of a read pair: the forward name without the lane suffix. */
  function MergedName(name: string): string {
    ReplaceAll(name, LaneSuffix, "")
  }

  /** Quality control's sample id: the file name without `.fastq`. */
  function SampleId(name: string): string {
    ReplaceAll(name, ".fastq", "")
  }

  /** Quality control's output file name: `.fastq` turned into `.fasta`. */
  function FastaName(name: string): string {
    ReplaceAll(name, ".fastq", ".fasta")
  }

  // ---------------------------------------------------------------------------
  // Jobs
  // ---------------------------------------------------------------------------

  /** `bbduk.sh -in1 -in2 -out1 -out2 -qtrim=r -trimq`. */
  datatype TrimJob = TrimJob(in1: string, in2: string, out1: string, out2: string, trimq: int)

  /** The two mergers: `fastq-join -p` and `bbmerge.sh` (with or without
      `-maxloose=t`). */
  datatype Merger = FastqJoin(maxDifference: int) | BBMerge(maxloose: bool)

  datatype MergeJob = MergeJob(in1: string, in2: string, out: string, merger: Merger)

  /** `split_libraries_fastq.py -i input -o scratch --sample_ids sampleId -q
      threshold`, then `scratch + "seqs.fna"` is moved to `output` and the
      scratch folder removed. */
  datatype QcJob = QcJob(input: string, scratch: string, sampleId: string, threshold: int,
                         sequences: string, output: string)

  /** `identify_chimeric_seqs.py -i input -m usearch61 -o chimeraDir -r
      reference`, then `filter_fasta.py -f input -o output -s nonChimeras`, then
      the scratch folder is removed. */
  datatype ChimeraJob = ChimeraJob(input: string, scratch: string, chimeraDir: string,
                                   reference: string, output: string, nonChimeras: string)

  /** `trimfolder`: one job per forward file; both reads keep their names. */
  function TrimFolder(inFolder: string, outFolder: string, trimq: int, listing: seq<string>): seq<TrimJob>
    requires |inFolder| > 0 && |outFolder| > 0
  {
    var input, output := AsFolder(inFolder), AsFolder(outFolder);
    var ins1 := Forward(listing);
    var ins2 := Mates(ins1);
    seq(|ins1|, i requires 0 <= i < |ins1| =>
      TrimJob(input + ins1[i], input + ins2[i], output + ins1[i], output + ins2[i], trimq))
  }

  /** The common body of `mergefolderbb` and `mergefolderfastq`. */
  function MergeJobs(inFolder: string, outFolder: string, merger: Merger, listing: seq<string>): seq<MergeJob>
    requires |inFolder| > 0 && |outFolder| > 0
  {
    var input, output := AsFolder(inFolder), AsFolder(outFolder);
    var ins1 := Forward(listing);
    var ins2 := Mates(ins1);
    var outs := seq(|ins1|, i requires 0 <= i < |ins1| => MergedName(ins1[i]));
    seq(|ins1|, i requires 0 <= i < |ins1| => MergeJob(input + ins1[i], input + ins2[i], output + outs[i], merger))
  }

  /** `mergefolderfastq(in_folder, out_folder, pp)`. */
  function MergeFolderFastq(inFolder: string, outFolder: string, pp: int, listing: seq<string>): seq<MergeJob>
    requires |inFolder| > 0 && |outFolder| > 0
  {
    MergeJobs(inFolder, outFolder, FastqJoin(pp), listing)
  }

  /** `mergefolderbb(in_folder, out_folder, maxloose)`. */
  function MergeFolderBB(inFolder: string, outFolder: string, maxloose: bool, listing: seq<string>): seq<MergeJob>
    requires |inFolder| > 0 && |outFolder| > 0
  {
    MergeJobs(inFolder, outFolder, BBMerge(maxloose), listing)
  }

  /** `qualitycontrol`: one job for every listed file, whatever its name. */
  function QualityControl(inFolder: string, outFolder: string, q: int, listing: seq<string>): seq<QcJob>
    requires |inFolder| > 0 && |outFolder| > 0
  {
    var input, output := AsFolder(inFolder), AsFolder(outFolder);
    var files := Sort(listing);
    seq(|files|, k requires 0 <= k < |files| =>
      var scratch := output + "temp" + files[k] + "/";
      QcJob(input + files[k], scratch, SampleId(files[k]), q, scratch + "seqs.fna", output + FastaName(files[k])))
  }

  /** `removechimera`: one job for every listed file; the SILVA chimera
      reference when `rdb == "silva"`, the GreenGenes one otherwise. */
  function RemoveChimera(inFolder: string, outFolder: string, rdb: string,
                         silvaChimRef: string, ggChimRef: string, listing: seq<string>): seq<ChimeraJob>
    requires |inFolder| > 0 && |outFolder| > 0
  {
    var input, output := AsFolder(inFolder), AsFolder(outFolder);
    var files := Sort(listing);
    var reference := if rdb == "silva" then silvaChimRef else ggChimRef;
    seq(|files|, k requires 0 <= k < |files| =>
      var scratch := output + "temp" + files[k] + "/";
      ChimeraJob(input + files[k], scratch, scratch + files[k], reference,
                 output + files[k], scratch + files[k] + "/non_chimeras.txt"))
  }

  // ---------------------------------------------------------------------------
  // Properties
  // ---------------------------------------------------------------------------

  lemma InMultiset(x: string, s: seq<string>)
    ensures x in s <==> multiset(s)[x] > 0
  {
  }

  /** `ins1` holds exactly the listing's forward-read files, in sorted order;
      `ins2` pairs each with its reverse-read file, of the same length and
      naming `_R2_`. */
  lemma {:induction false} Pairing(listing: seq<string>)
    ensures var ins1, ins2 := Forward(listing), Mates(Forward(listing));
      && Sorted(ins1)
      && (forall x :: x in ins1 <==> x in listing && Contains(x, R1))
      && |ins2| == |ins1|
      && forall i :: 0 <= i < |ins1| ==>
           ins2[i] == Mate(ins1[i]) && Contains(ins2[i], R2) && |ins2[i]| == |ins1[i]|
  {
    var ins1 := Forward(listing);
    forall x ensures x in ins1 <==> x in listing && Contains(x, R1) {
      InMultiset(x, ins1);
      InMultiset(x, Sort(listing));
      InMultiset(x, listing);
    }
    forall i | 0 <= i < |ins1| ensures Contains(Mate(ins1[i]), R2) && |Mate(ins1[i])| == |ins1[i]| {
      InMultiset(ins1[i], ins1);
      ReplaceIntroduces(ins1[i], R1, R2);
      ReplaceKeepsLength(ins1[i], R1, R2);
    }
  }

  /** Sorting and filtering commute: `ins1` is the sorted list of the
      listing's forward-read files. */
  lemma ForwardIsSortedR1Files(listing: seq<string>)
    ensures Forward(listing) == Sort(R1Files(listing))
  {
    var a, b := Forward(listing), Sort(R1Files(listing));
    assert multiset(a) == multiset(b) by {
      forall x ensures multiset(a)[x] == multiset(b)[x] {
      }
    }
    SortUnique(a, b);
  }

  /** Trimming keeps both names of a pair and pairs each forward file with its
      mate; one job per forward file, in sorted order. */
  lemma TrimKeepsNames(inFolder: string, outFolder: string, trimq: int, listing: seq<string>)
    requires |inFolder| > 0 && |outFolder| > 0
    ensures var jobs, input, output := TrimFolder(inFolder, outFolder, trimq, listing), AsFolder(inFolder), AsFolder(outFolder);
      && |jobs| == |Forward(listing)|
      && forall i :: 0 <= i < |jobs| ==>
           var name := Forward(listing)[i];
           && jobs[i].in1 == input + name && jobs[i].out1 == output + name
           && jobs[i].in2 == input + Mate(name) && jobs[i].out2 == output + Mate(name)
           && jobs[i].trimq == trimq
  {
  }

  /** Merging writes one file per pair, named after the forward file without
      the lane suffix, with the merger chosen for the run. */
  lemma MergeNames(inFolder: string, outFolder: string, merger: Merger, listing: seq<string>)
    requires |inFolder| > 0 && |outFolder| > 0
    ensures var jobs, input, output := MergeJobs(inFolder, outFolder, merger, listing), AsFolder(inFolder), AsFolder(outFolder);
      && |jobs| == |Forward(listing)|
      && forall i :: 0 <= i < |jobs| ==>
           var name := Forward(listing)[i];
           && jobs[i].in1 == input + name && jobs[i].in2 == input + Mate(name)
           && jobs[i].out == output + MergedName(name) && jobs[i].merger == merger
  {
  }

  /** For a name with a single lane suffix, the merged name is the name with
      that suffix cut out. */
  lemma MergedNameCutsLane(sample: string, rest: string)
    requires !Contains(sample + LaneSuffix[..|LaneSuffix| - 1], LaneSuffix) && !Contains(rest, LaneSuffix)
    ensures MergedName(sample + LaneSuffix + rest) == sample + rest
  {
    ReplaceSingle(sample, LaneSuffix, rest, "");
  }

  /** The Illumina example: `sample1_S1_L001_R1_001.fastq` merges into
      `sample1_S1.fastq` and pairs with `sample1_S1_L001_R2_001.fastq`. */
  const IlluminaForward := "sample1_S1" + LaneSuffix + ".fastq"

  lemma IlluminaMerged()
    ensures MergedName(IlluminaForward) == "sample1_S1.fastq"
  {
    var tail := LaneSuffix + ".fastq";
    assert IlluminaForward == "sample1_S1" + tail;
    ReplaceKeepsHead("sample1_S1", tail, LaneSuffix, "");
    assert MergedName(IlluminaForward) == "sample1_S1" + ReplaceAll(tail, LaneSuffix, "");
    assert !Contains(LaneSuffix[..|LaneSuffix| - 1], LaneSuffix);
    assert !Contains(".fastq", LaneSuffix);
    ReplaceSingle([], LaneSuffix, ".fastq", "");
    assert [] + LaneSuffix + ".fastq" == tail;
    assert ReplaceAll(tail, LaneSuffix, "") == ".fastq";
  }

  lemma IlluminaMateTail()
    ensures ReplaceAll(R1 + "001.fastq", R1, R2) == R2 + "001.fastq"
  {
    var s := R1 + "001.fastq";
    assert s[..|R1|] == R1 && s[|R1|..] == "001.fastq";
    assert ReplaceAll(s, R1, R2) == R2 + ReplaceAll("001.fastq", R1, R2);
    AbsentChar("001.fastq", R1, '_');
    ReplaceAbsent("001.fastq", R1, R2);
  }

  lemma IlluminaMateHead()
    ensures Mate(IlluminaForward) == "sample1_S1_L001" + ReplaceAll(R1 + "001.fastq", R1, R2)
  {
    var head := "sample1_S1_L001";
    var tail := R1 + "001.fastq";
    assert IlluminaForward == head + tail;
    ReplaceKeepsHead(head, tail, R1, R2);
  }

  lemma IlluminaMate()
    ensures Mate(IlluminaForward) == "sample1_S1_L001_R2_001.fastq"
  {
    IlluminaMateHead();
    IlluminaMateTail();
  }

  /** Quality control handles every listed file, not only the forward reads;
      each job's scratch folder is `temp<name>/` in the output folder. */
  lemma QualityControlNames(inFolder: string, outFolder: string, q: int, listing: seq<string>)
    requires |inFolder| > 0 && |outFolder| > 0
    ensures var jobs, input, output := QualityControl(inFolder, outFolder, q, listing), AsFolder(inFolder), AsFolder(outFolder);
      && |jobs| == |listing|
      && forall k :: 0 <= k < |jobs| ==>
           var name := Sort(listing)[k];
           && name in listing
           && jobs[k].input == input + name
           && jobs[k].scratch == output + "temp" + name + "/"
           && jobs[k].sampleId == SampleId(name)
           && jobs[k].output == output + FastaName(name)
           && jobs[k].threshold == q
  {
    var files := Sort(listing);
    assert |files| == |listing| by {
      assert |multiset(files)| == |multiset(listing)|;
    }
    forall k | 0 <= k < |files| ensures files[k] in listing {
      InMultiset(files[k], files);
      InMultiset(files[k], listing);
    }
  }

  /** A `<sample>.fastq` file gets sample id `<sample>` and output
      `<sample>.fasta`. */
  lemma FastqNames(sample: string)
    requires !Contains(sample + ".fast", ".fastq")
    ensures SampleId(sample + ".fastq") == sample
    ensures FastaName(sample + ".fastq") == sample + ".fasta"
  {
    assert ".fastq"[..5] == ".fast";
    ReplaceSingle(sample, ".fastq", "", "");
    ReplaceSingle(sample, ".fastq", "", ".fasta");
    assert sample + ".fastq" + "" == sample + ".fastq";
  }

  /** Chimera removal uses the SILVA reference exactly when `rdb == "silva"`
      and the GreenGenes reference for every other database name. For a file
      `i` it reads `in + i`, works in the scratch folder `out + "temp" + i +
      "/"`, writes the chimera report into `temp + i` and the filtered file to
      `out + i`. */
  lemma ChimeraReference(inFolder: string, outFolder: string, rdb: string,
                         silvaChimRef: string, ggChimRef: string, listing: seq<string>)
    requires |inFolder| > 0 && |outFolder| > 0
    ensures var jobs := RemoveChimera(inFolder, outFolder, rdb, silvaChimRef, ggChimRef, listing);
      && |jobs| == |listing|
      && forall k :: 0 <= k < |jobs| ==>
           var name := Sort(listing)[k];
           && name in listing
           && jobs[k].reference == (if rdb == "silva" then silvaChimRef else ggChimRef)
           && jobs[k].input == AsFolder(inFolder) + name
           && jobs[k].scratch == AsFolder(outFolder) + "temp" + name + "/"
           && jobs[k].chimeraDir == jobs[k].scratch + name
           && jobs[k].output == AsFolder(outFolder) + name
           && jobs[k].nonChimeras == jobs[k].chimeraDir + "/non_chimeras.txt"
  {
    var files := Sort(listing);
    assert |files| == |listing| by {
      assert |multiset(files)| == |multiset(listing)|;
    }
    forall k | 0 <= k < |files| ensures files[k] in listing {
      InMultiset(files[k], files);
      InMultiset(files[k], listing);
    }
  }
}
