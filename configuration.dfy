/**
 * `get_configuration` (qiime_analysis.py:75-98): twenty `(section, option)`
 * lookups into the INI file named by `-c`. The seven folder names pass
 * through `asfolder` and `jobs_to_start` through `int`. A missing option
 * (`cp.get` raising), an empty folder name (`folder[-1]` raising) and a
 * non-integer `jobs_to_start` (`int` raising) each end the lookup there.
 */
module Configuration {
  import opened Base
  import opened Text

  /** The twenty options the script reads, named after their section. Any
      other option of the file is never read. */
  datatype Setting =
    | FoldersTrimmed | FoldersMerged | FoldersQualityStep | FoldersChimeraRemoved
    | FoldersOtus | FoldersDiversityAnalyses | FoldersOthers
    | GeneralJobsToStart
    | SilvaTaxonomy | SilvaReferenceSeqs | SilvaCoreAlignment | ChimeraSilva
    | GgTaxonomy | GgReferenceSeqs | GgCoreAlignment | ChimeraGg
    | UniteTaxonomy | UniteReferenceSeqs
    | GeneralSimilarity | GeneralBlastEValue
  {
    /** The options of section `FOLDERS`, whose values name folders. */
    predicate InFolders() {
      || this == FoldersTrimmed || this == FoldersMerged || this == FoldersQualityStep
      || this == FoldersChimeraRemoved || this == FoldersOtus || this == FoldersDiversityAnalyses
      || this == FoldersOthers
    }

    /** The `(section, option)` pair `cp.get` is called with. */
    function Address(): (string, string) {
      match this
      case FoldersTrimmed => ("FOLDERS", "trimmed")
      case FoldersMerged => ("FOLDERS", "merged")
      case FoldersQualityStep => ("FOLDERS", "quality_step")
      case FoldersChimeraRemoved => ("FOLDERS", "chimera_removed")
      case FoldersOtus => ("FOLDERS", "otus")
      case FoldersDiversityAnalyses => ("FOLDERS", "diversity_analyses")
      case FoldersOthers => ("FOLDERS", "others")
      case GeneralJobsToStart => ("GENERAL", "jobs_to_start")
      case SilvaTaxonomy => ("SILVA", "taxonomy")
      case SilvaReferenceSeqs => ("SILVA", "reference_seqs")
      case SilvaCoreAlignment => ("SILVA", "core_alignment")
      case ChimeraSilva => ("CHIMERA", "silva")
      case GgTaxonomy => ("GG", "taxonomy")
      case GgReferenceSeqs => ("GG", "reference_seqs")
      case GgCoreAlignment => ("GG", "core_alignment")
      case ChimeraGg => ("CHIMERA", "gg")
      case UniteTaxonomy => ("UNITE", "taxonomy")
      case UniteReferenceSeqs => ("UNITE", "reference_seqs")
      case GeneralSimilarity => ("GENERAL", "similarity")
      case GeneralBlastEValue => ("GENERAL", "blast_e_value")
    }
  }

  /** The parsed INI file: each option present in it, with its raw value. */
  type Ini = map<Setting, string>

  datatype ConfigError =
    | Missing(setting: Setting)
    | EmptyFolder(setting: Setting)
    | NotAnInteger(value: string)

  /** The configuration fields, in the order `get_configuration` reads them. */
  datatype Config = Config(
    trimmed: string, merged: string, qualityStep: string, chimeraRemoved: string,
    otus: string, diversityAnalyses: string, others: string,
    jobsToStart: int,
    silvaTaxonomy: string, silvaReferenceSeqs: string, silvaCoreAlignment: string, silvaChimRef: string,
    ggTaxonomy: string, ggReferenceSeqs: string, ggCoreAlignment: string, ggChimRef: string,
    uniteTaxonomy: string, uniteReferenceSeqs: string,
    similarity: string, blastEValue: string)
  {
    /** Every folder name ends with `/`, as `asfolder` leaves it. */
    predicate Valid() {
      && IsFolder(trimmed) && IsFolder(merged) && IsFolder(qualityStep) && IsFolder(chimeraRemoved)
      && IsFolder(otus) && IsFolder(diversityAnalyses) && IsFolder(others)
    }
  }

  predicate IsFolder(f: string) {
    |f| > 0 && f[|f| - 1] == '/'
  }

  /** `cp.get(section, option)`. */
  function Get(ini: Ini, setting: Setting): (r: Result<string, ConfigError>)
    ensures r.Ok? <==> setting in ini
    ensures r.Ok? ==> r.value == ini[setting]
    ensures r.Err? ==> r.error == Missing(setting)
  {
    if setting in ini then Ok(ini[setting]) else Err(Missing(setting))
  }

  /** `asfolder(cp.get('FOLDERS', option))`. */
  function Folder(ini: Ini, setting: Setting): (r: Result<string, ConfigError>)
    ensures r.Ok? <==> setting in ini && ini[setting] != ""
    ensures r.Ok? ==> IsFolder(r.value) && r.value == AsFolder(ini[setting])
    ensures r.Err? ==> r.error == if setting in ini then EmptyFolder(setting) else Missing(setting)
  {
    var name :- Get(ini, setting);
    if name == "" then Err(EmptyFolder(setting)) else Ok(AsFolder(name))
  }

  /** `int(value)`. */
  function ToInt(value: string): (r: Result<int, ConfigError>)
    ensures r.Ok? <==> ParseInt(value).Some?
    ensures r.Ok? ==> Some(r.value) == ParseInt(value)
    ensures r.Err? ==> r.error == NotAnInteger(value)
  {
    match ParseInt(value)
    case Some(n) => Ok(n)
    case None => Err(NotAnInteger(value))
  }

  /** The lookups succeed exactly when every option is present, no folder name
      is empty and `jobs_to_start` is an integer. */
  predicate Loadable(ini: Ini) {
    && ReadableFolder(ini, FoldersTrimmed) && ReadableFolder(ini, FoldersMerged)
    && ReadableFolder(ini, FoldersQualityStep) && ReadableFolder(ini, FoldersChimeraRemoved)
    && ReadableFolder(ini, FoldersOtus) && ReadableFolder(ini, FoldersDiversityAnalyses)
    && ReadableFolder(ini, FoldersOthers)
    && GeneralJobsToStart in ini && ParseInt(ini[GeneralJobsToStart]).Some?
    && SilvaTaxonomy in ini && SilvaReferenceSeqs in ini && SilvaCoreAlignment in ini && ChimeraSilva in ini
    && GgTaxonomy in ini && GgReferenceSeqs in ini && GgCoreAlignment in ini && ChimeraGg in ini
    && UniteTaxonomy in ini && UniteReferenceSeqs in ini
    && GeneralSimilarity in ini && GeneralBlastEValue in ini
  }

  predicate ReadableFolder(ini: Ini, setting: Setting) {
    setting in ini && ini[setting] != ""
  }

  /** `setting` is present and `value` is its text. */
  predicate Reads(ini: Ini, setting: Setting, value: string) {
    setting in ini && ini[setting] == value
  }

  /** `setting` is present and `folder` is its text made a folder. */
  predicate ReadsFolder(ini: Ini, setting: Setting, folder: string) {
    ReadableFolder(ini, setting) && folder == AsFolder(ini[setting])
  }

  /** Every field of `c` is the value of its option in the file. */
  predicate Describes(ini: Ini, c: Config) {
    && ReadsFolder(ini, FoldersTrimmed, c.trimmed) && ReadsFolder(ini, FoldersMerged, c.merged)
    && ReadsFolder(ini, FoldersQualityStep, c.qualityStep)
    && ReadsFolder(ini, FoldersChimeraRemoved, c.chimeraRemoved)
    && ReadsFolder(ini, FoldersOtus, c.otus) && ReadsFolder(ini, FoldersDiversityAnalyses, c.diversityAnalyses)
    && ReadsFolder(ini, FoldersOthers, c.others)
    && GeneralJobsToStart in ini && ParseInt(ini[GeneralJobsToStart]) == Some(c.jobsToStart)
    && Reads(ini, SilvaTaxonomy, c.silvaTaxonomy) && Reads(ini, SilvaReferenceSeqs, c.silvaReferenceSeqs)
    && Reads(ini, SilvaCoreAlignment, c.silvaCoreAlignment) && Reads(ini, ChimeraSilva, c.silvaChimRef)
    && Reads(ini, GgTaxonomy, c.ggTaxonomy) && Reads(ini, GgReferenceSeqs, c.ggReferenceSeqs)
    && Reads(ini, GgCoreAlignment, c.ggCoreAlignment) && Reads(ini, ChimeraGg, c.ggChimRef)
    && Reads(ini, UniteTaxonomy, c.uniteTaxonomy) && Reads(ini, UniteReferenceSeqs, c.uniteReferenceSeqs)
    && Reads(ini, GeneralSimilarity, c.similarity) && Reads(ini, GeneralBlastEValue, c.blastEValue)
  }

  /** What each error says about the file: the option it names is missing,
      the folder name it names is empty, or the value is not an integer. */
  predicate Explains(ini: Ini, e: ConfigError) {
    match e
    case Missing(s) => s !in ini
    case EmptyFolder(s) => s.InFolders() && s in ini && ini[s] == ""
    case NotAnInteger(value) => GeneralJobsToStart in ini && value == ini[GeneralJobsToStart] && ParseInt(value).None?
  }

  /** `get_configuration`: the twenty lookups in source order, stopping at the
      first that raises. On success every folder ends with `/` and is the
      configured name made a folder, `jobsToStart` is the integer written in
      the file and the other fields are the configured text; on failure the
      error names a lookup that failed. */
  function Load(ini: Ini): (r: Result<Config, ConfigError>)
    ensures r.Ok? <==> Loadable(ini)
    ensures r.Ok? ==> r.value.Valid() && Describes(ini, r.value)
    ensures r.Err? ==> Explains(ini, r.error)
  {
    var trimmed :- Folder(ini, FoldersTrimmed);
    var merged :- Folder(ini, FoldersMerged);
    var qualityStep :- Folder(ini, FoldersQualityStep);
    var chimeraRemoved :- Folder(ini, FoldersChimeraRemoved);
    var otus :- Folder(ini, FoldersOtus);
    var diversityAnalyses :- Folder(ini, FoldersDiversityAnalyses);
    var others :- Folder(ini, FoldersOthers);
    var jobs :- Get(ini, GeneralJobsToStart);
    var jobsToStart :- ToInt(jobs);
    var silvaTaxonomy :- Get(ini, SilvaTaxonomy);
    var silvaReferenceSeqs :- Get(ini, SilvaReferenceSeqs);
    var silvaCoreAlignment :- Get(ini, SilvaCoreAlignment);
    var silvaChimRef :- Get(ini, ChimeraSilva);
    var ggTaxonomy :- Get(ini, GgTaxonomy);
    var ggReferenceSeqs :- Get(ini, GgReferenceSeqs);
    var ggCoreAlignment :- Get(ini, GgCoreAlignment);
    var ggChimRef :- Get(ini, ChimeraGg);
    var uniteTaxonomy :- Get(ini, UniteTaxonomy);
    var uniteReferenceSeqs :- Get(ini, UniteReferenceSeqs);
    var similarity :- Get(ini, GeneralSimilarity);
    var blastEValue :- Get(ini, GeneralBlastEValue);
    Ok(Config(trimmed, merged, qualityStep, chimeraRemoved, otus, diversityAnalyses, others,
              jobsToStart,
              silvaTaxonomy, silvaReferenceSeqs, silvaCoreAlignment, silvaChimRef,
              ggTaxonomy, ggReferenceSeqs, ggCoreAlignment, ggChimRef,
              uniteTaxonomy, uniteReferenceSeqs, similarity, blastEValue))
  }
}
