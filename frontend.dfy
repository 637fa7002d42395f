/**
 * The `__main__` block of qiime_analysis.py (lines 576-765) and the run
 * identifier computed at import time (lines 40-47). The script keeps every
 * parameter in the global dictionary `PR`, filled step by step: the run
 * identifier, the parsed arguments, the configuration, the derived paths.
 * `RunParameters` is that dictionary; `Script` is the block as written and
 * `RepairedScript` the block with its two defects removed.
 */
module Frontend {
  import opened Base
  import opened Text
  import opened Workflow
  import Configuration
  import Reference

  // ---------------------------------------------------------------------------
  // The run identifier
  // ---------------------------------------------------------------------------

  /** The characters the identifier drops from the timestamp. */
  const Separators: set<char> := {' ', ':', '.', '-'}

  /** `str(datetime.now())` with spaces, colons, dots and hyphens removed,
      cut to its first fourteen characters: at most fourteen characters, none
      of them a separator, and a prefix of the timestamp with the separators
      taken out. */
  function RunId(timestamp: string): (id: string)
    ensures |id| <= 14
    ensures forall k :: 0 <= k < |id| ==> id[k] !in Separators
    ensures |id| == if |Without(timestamp, Separators)| < 14 then |Without(timestamp, Separators)| else 14
    ensures id == Without(timestamp, Separators)[..|id|]
  {
    var s := ReplaceAll(ReplaceAll(ReplaceAll(ReplaceAll(timestamp, " ", ""), ":", ""), ".", ""), "-", "");
    StripsSeparators(timestamp);
    WithoutExcludes(timestamp, Separators);
    if |s| < 14 then s else s[..14]
  }

  /** The four `replace(c, "")` calls remove exactly the separators. */
  lemma StripsSeparators(timestamp: string)
    ensures ReplaceAll(ReplaceAll(ReplaceAll(ReplaceAll(timestamp, " ", ""), ":", ""), ".", ""), "-", "")
            == Without(timestamp, Separators)
  {
    var a := ReplaceAll(timestamp, " ", "");
    ReplaceCharIsWithout(timestamp, ' ');
    var b := ReplaceAll(a, ":", "");
    ReplaceCharIsWithout(a, ':');
    WithoutTwice(timestamp, {' '}, {':'});
    var c := ReplaceAll(b, ".", "");
    ReplaceCharIsWithout(b, '.');
    WithoutTwice(timestamp, {' '} + {':'}, {'.'});
    ReplaceCharIsWithout(c, '-');
    WithoutTwice(timestamp, {' '} + {':'} + {'.'}, {'-'});
    assert {' '} + {':'} + {'.'} + {'-'} == Separators;
  }

  // ---------------------------------------------------------------------------
  // Arguments
  // ---------------------------------------------------------------------------

  /** The parsed command line; an option not given is `None`. */
  datatype Arguments = Arguments(
    input: string, output: string, beginwith: Option<string>, trimThreshold: int,
    stopAt: Option<string>, joiningMethod: string, fastqP: int, qcThreshold: int,
    configFile: string, mappingFile: Option<string>, parameterFileName: Option<string>,
    numberOfCores: int, fungus: bool, maxloose: bool, rdb: string, depth: int)

  /** The two required options with every other option at its default. */
  function WithDefaults(input: string, output: string): Arguments {
    Arguments(input, output, None, 10, None, "fastq-join", 16, 19, "qiime.cfg", None, None,
              2, false, false, "silva", 10000)
  }

  // ---------------------------------------------------------------------------
  // The parameter dictionary
  // ---------------------------------------------------------------------------

  /** The keys of `PR`. */
  datatype Key =
    | Id
    | InFolder | OutFolder | Rdb | Qcq | Maxloose | Trimq | JoiningMethod | FastqP | Depth | Fungus
    | ConfigFile | ParameterFileName | Beginwith | MappingFile
    | Ftrimmed | Fmerged | Fqc | Fchi | Fotus | Fdiv | Fothers
    | NumberOfCores
    | SilvaTaxonomy | SilvaReferenceSeqs | SilvaCoreAlignment | SilvaChimRef
    | GgTaxonomy | GgReferenceSeqs | GgCoreAlignment | GgChimRef
    | UniteTaxonomy | UniteReferenceSeqs | SimilarityValue | BlastEValueSetting
    | Others
  {
    /** The configuration option `get_configuration` stores under this key. */
    function Source(): Option<Configuration.Setting> {
      match this
      case Ftrimmed => Some(Configuration.FoldersTrimmed)
      case Fmerged => Some(Configuration.FoldersMerged)
      case Fqc => Some(Configuration.FoldersQualityStep)
      case Fchi => Some(Configuration.FoldersChimeraRemoved)
      case Fotus => Some(Configuration.FoldersOtus)
      case Fdiv => Some(Configuration.FoldersDiversityAnalyses)
      case Fothers => Some(Configuration.FoldersOthers)
      case NumberOfCores => Some(Configuration.GeneralJobsToStart)
      case SilvaTaxonomy => Some(Configuration.SilvaTaxonomy)
      case SilvaReferenceSeqs => Some(Configuration.SilvaReferenceSeqs)
      case SilvaCoreAlignment => Some(Configuration.SilvaCoreAlignment)
      case SilvaChimRef => Some(Configuration.ChimeraSilva)
      case GgTaxonomy => Some(Configuration.GgTaxonomy)
      case GgReferenceSeqs => Some(Configuration.GgReferenceSeqs)
      case GgCoreAlignment => Some(Configuration.GgCoreAlignment)
      case GgChimRef => Some(Configuration.ChimeraGg)
      case UniteTaxonomy => Some(Configuration.UniteTaxonomy)
      case UniteReferenceSeqs => Some(Configuration.UniteReferenceSeqs)
      case SimilarityValue => Some(Configuration.GeneralSimilarity)
      case BlastEValueSetting => Some(Configuration.GeneralBlastEValue)
      case _ => None
    }
  }

  /** A value of `PR`: a string, an integer, a boolean or `None`. */
  datatype Value = Text(text: string) | Number(number: int) | Flag(flag: bool) | Nothing

  function OptionalText(o: Option<string>): Value {
    if o.Some? then Text(o.value) else Nothing
  }

  /** The keys `PR.update` fills from the command line (lines 683-699). */
  predicate IsArgumentKey(k: Key) {
    match k
    case InFolder | OutFolder | Rdb | Qcq | Maxloose | Trimq | JoiningMethod | FastqP | Depth | Fungus
       | ConfigFile | ParameterFileName | Beginwith | MappingFile => true
    case _ => false
  }

  /** The value `PR.update` stores under `k`: the option's value, `None`
      for an optional option not given. */
  function Argument(a: Arguments, k: Key): Value {
    match k
    case InFolder => Text(a.input)
    case OutFolder => Text(a.output)
    case Rdb => Text(a.rdb)
    case Qcq => Number(a.qcThreshold)
    case Maxloose => Flag(a.maxloose)
    case Trimq => Number(a.trimThreshold)
    case JoiningMethod => Text(a.joiningMethod)
    case FastqP => Number(a.fastqP)
    case Depth => Number(a.depth)
    case Fungus => Flag(a.fungus)
    case ConfigFile => Text(a.configFile)
    case ParameterFileName => OptionalText(a.parameterFileName)
    case Beginwith => OptionalText(a.beginwith)
    case MappingFile => OptionalText(a.mappingFile)
    case _ => Nothing
  }

  /** The dictionary literal `PR.update` is called with. */
  function ArgumentEntries(a: Arguments): map<Key, Value> {
    map k: Key | IsArgumentKey(k) :: Argument(a, k)
  }

  /** The value `get_configuration` stores under `k`. */
  function Entry(c: Configuration.Config, k: Key): Value {
    match k
    case Ftrimmed => Text(c.trimmed)
    case Fmerged => Text(c.merged)
    case Fqc => Text(c.qualityStep)
    case Fchi => Text(c.chimeraRemoved)
    case Fotus => Text(c.otus)
    case Fdiv => Text(c.diversityAnalyses)
    case Fothers => Text(c.others)
    case NumberOfCores => Number(c.jobsToStart)
    case SilvaTaxonomy => Text(c.silvaTaxonomy)
    case SilvaReferenceSeqs => Text(c.silvaReferenceSeqs)
    case SilvaCoreAlignment => Text(c.silvaCoreAlignment)
    case SilvaChimRef => Text(c.silvaChimRef)
    case GgTaxonomy => Text(c.ggTaxonomy)
    case GgReferenceSeqs => Text(c.ggReferenceSeqs)
    case GgCoreAlignment => Text(c.ggCoreAlignment)
    case GgChimRef => Text(c.ggChimRef)
    case UniteTaxonomy => Text(c.uniteTaxonomy)
    case UniteReferenceSeqs => Text(c.uniteReferenceSeqs)
    case SimilarityValue => Text(c.similarity)
    case BlastEValueSetting => Text(c.blastEValue)
    case _ => Nothing
  }

  /** The entries `get_configuration` stores. */
  function ConfigEntries(c: Configuration.Config): map<Key, Value> {
    map k: Key | k.Source().Some? :: Entry(c, k)
  }

  /** What the configuration file says should be stored under the key fed
      from `setting`: the folder name made a folder, the integer
      `jobs_to_start`, or the raw text. */
  function FromIni(ini: Configuration.Ini, setting: Configuration.Setting): Value
    requires setting in ini
  {
    if setting.InFolders() then (if ini[setting] == "" then Nothing else Text(AsFolder(ini[setting])))
    else if setting == Configuration.GeneralJobsToStart then
      (match ParseInt(ini[setting]) case Some(n) => Number(n) case None => Nothing)
    else Text(ini[setting])
  }

  /** The entries `get_configuration` stores are exactly the keys fed from
      the file, each holding what the file says. */
  lemma ConfigEntriesFromIni(ini: Configuration.Ini)
    requires Configuration.Loadable(ini)
    ensures var entries := ConfigEntries(Configuration.Load(ini).value);
      forall k :: (k in entries <==> k.Source().Some?)
                  && (k in entries ==> k.Source().value in ini && entries[k] == FromIni(ini, k.Source().value))
  {
    var c := Configuration.Load(ini).value;
    var entries := ConfigEntries(c);
    assert Configuration.Describes(ini, c);
    forall k
      ensures (k in entries <==> k.Source().Some?)
              && (k in entries ==> k.Source().value in ini && entries[k] == FromIni(ini, k.Source().value))
    {
      if k.Source().Some? {
        EntryFromIni(ini, c, k);
      }
    }
  }

  lemma EntryFromIni(ini: Configuration.Ini, c: Configuration.Config, k: Key)
    requires Configuration.Describes(ini, c) && k.Source().Some?
    ensures k.Source().value in ini
    ensures Entry(c, k) == FromIni(ini, k.Source().value)
  {
    if k in {Ftrimmed, Fmerged, Fqc, Fchi, Fotus, Fdiv, Fothers, NumberOfCores} {
      FolderEntryFromIni(ini, c, k);
    } else {
      TextEntryFromIni(ini, c, k);
    }
  }

  lemma FolderEntryFromIni(ini: Configuration.Ini, c: Configuration.Config, k: Key)
    requires Configuration.Describes(ini, c)
    requires k in {Ftrimmed, Fmerged, Fqc, Fchi, Fotus, Fdiv, Fothers, NumberOfCores}
    ensures k.Source().Some? && k.Source().value in ini
    ensures Entry(c, k) == FromIni(ini, k.Source().value)
  {
    match k
    case Ftrimmed =>
    case Fmerged =>
    case Fqc =>
    case Fchi =>
    case Fotus =>
    case Fdiv =>
    case Fothers =>
    case NumberOfCores =>
  }

  lemma TextEntryFromIni(ini: Configuration.Ini, c: Configuration.Config, k: Key)
    requires Configuration.Describes(ini, c) && k.Source().Some?
    requires k !in {Ftrimmed, Fmerged, Fqc, Fchi, Fotus, Fdiv, Fothers, NumberOfCores}
    ensures k.Source().value in ini && !k.Source().value.InFolders()
    ensures Entry(c, k) == Text(ini[k.Source().value])
  {
    match k
    case SilvaTaxonomy =>
    case SilvaReferenceSeqs =>
    case SilvaCoreAlignment =>
    case SilvaChimRef =>
    case GgTaxonomy =>
    case GgReferenceSeqs =>
    case GgCoreAlignment =>
    case GgChimRef =>
    case UniteTaxonomy =>
    case UniteReferenceSeqs =>
    case SimilarityValue =>
    case BlastEValueSetting =>
  }


  predicate HasText(pr: map<Key, Value>, k: Key) {
    k in pr && pr[k].Text?
  }

  predicate HasNumber(pr: map<Key, Value>, k: Key) {
    k in pr && pr[k].Number?
  }

  predicate HasFlag(pr: map<Key, Value>, k: Key) {
    k in pr && pr[k].Flag?
  }

  predicate HasFolder(pr: map<Key, Value>, k: Key) {
    HasText(pr, k) && Configuration.IsFolder(pr[k].text)
  }

  /** The dictionary has every key the runners read, each holding a value of
      the right kind, and the folder names end with `/`. */
  predicate ReadyMap(pr: map<Key, Value>) {
    && HasText(pr, InFolder) && HasText(pr, OutFolder) && HasText(pr, Rdb) && HasNumber(pr, Qcq)
    && HasFlag(pr, Maxloose) && HasNumber(pr, Trimq) && HasText(pr, JoiningMethod) && HasNumber(pr, FastqP)
    && HasNumber(pr, Depth) && HasFlag(pr, Fungus) && HasText(pr, ParameterFileName) && HasText(pr, MappingFile)
    && HasNumber(pr, NumberOfCores)
    && HasFolder(pr, Ftrimmed) && HasFolder(pr, Fmerged) && HasFolder(pr, Fqc) && HasFolder(pr, Fchi)
    && HasFolder(pr, Fotus) && HasFolder(pr, Fdiv) && HasFolder(pr, Fothers)
    && HasText(pr, SilvaTaxonomy) && HasText(pr, SilvaReferenceSeqs) && HasText(pr, SilvaCoreAlignment)
    && HasText(pr, SilvaChimRef) && HasText(pr, GgTaxonomy) && HasText(pr, GgReferenceSeqs)
    && HasText(pr, GgCoreAlignment) && HasText(pr, GgChimRef) && HasText(pr, UniteTaxonomy)
    && HasText(pr, UniteReferenceSeqs) && HasText(pr, SimilarityValue) && HasText(pr, BlastEValueSetting)
  }

  /** The configuration as the runners see it through the dictionary;
      `jobs_to_start` is whatever `number_of_cores` holds now. */
  function ConfigOf(pr: map<Key, Value>): (c: Configuration.Config)
    requires ReadyMap(pr)
    ensures c.Valid()
  {
    Configuration.Config(
      pr[Ftrimmed].text, pr[Fmerged].text, pr[Fqc].text, pr[Fchi].text,
      pr[Fotus].text, pr[Fdiv].text, pr[Fothers].text,
      pr[NumberOfCores].number,
      pr[SilvaTaxonomy].text, pr[SilvaReferenceSeqs].text, pr[SilvaCoreAlignment].text, pr[SilvaChimRef].text,
      pr[GgTaxonomy].text, pr[GgReferenceSeqs].text, pr[GgCoreAlignment].text, pr[GgChimRef].text,
      pr[UniteTaxonomy].text, pr[UniteReferenceSeqs].text, pr[SimilarityValue].text, pr[BlastEValueSetting].text)
  }

  /** The entries of the dictionary the runners read. */
  function SettingsOf(pr: map<Key, Value>): (s: Settings)
    requires ReadyMap(pr)
    ensures s.config.Valid()
  {
    Settings(pr[InFolder].text, pr[OutFolder].text, pr[Rdb].text, pr[Qcq].number, pr[Maxloose].flag,
             pr[Trimq].number, pr[JoiningMethod].text, pr[FastqP].number, pr[Depth].number,
             pr[Fungus].flag, pr[ParameterFileName].text, pr[MappingFile].text,
             pr[NumberOfCores].number, ConfigOf(pr))
  }

  /** The folder `others`: the configured name, already a folder, glued to
      the output folder. */
  function OthersFolder(output: string, c: Configuration.Config): string {
    output + c.others
  }

  /** What the runners read once the script has filled the dictionary: the
      arguments, the configuration with `jobs_to_start` replaced by `-n`, and
      the two file names the script settled on. */
  function SettingsFor(a: Arguments, c: Configuration.Config, parameterFile: string, mappingFile: string): Settings {
    Settings(a.input, a.output, a.rdb, a.qcThreshold, a.maxloose, a.trimThreshold, a.joiningMethod,
             a.fastqP, a.depth, a.fungus, parameterFile, mappingFile, a.numberOfCores,
             c.(jobsToStart := a.numberOfCores))
  }

  /** Every key filled from the command line, apart from the two file names
      the script renames later, holds the option's value. */
  predicate HoldsArguments(pr: map<Key, Value>, a: Arguments) {
    forall k {:trigger Argument(a, k)} | IsArgumentKey(k) && k != ParameterFileName && k != MappingFile ::
      k in pr && pr[k] == Argument(a, k)
  }

  /** Every key filled from the configuration, apart from `number_of_cores`,
      which `-n` replaces, holds the configured value. */
  predicate HoldsConfiguration(pr: map<Key, Value>, c: Configuration.Config) {
    forall k: Key {:trigger Entry(c, k)} | k.Source().Some? && k != NumberOfCores :: k in pr && pr[k] == Entry(c, k)
  }

  /** The keys the script assigns after loading the configuration. */
  predicate LateKey(k: Key) {
    k == Others || k == NumberOfCores || k == ParameterFileName || k == MappingFile
  }

  /** `PR.update` stores the arguments. */
  lemma ArgumentsStored(pr: map<Key, Value>, a: Arguments)
    ensures HoldsArguments(pr + ArgumentEntries(a), a)
  {
  }

  /** `get_configuration` stores its entries and overwrites no argument. */
  lemma ConfigurationStored(pr: map<Key, Value>, a: Arguments, c: Configuration.Config)
    requires HoldsArguments(pr, a)
    ensures HoldsArguments(pr + ConfigEntries(c), a) && HoldsConfiguration(pr + ConfigEntries(c), c)
  {
    forall k | IsArgumentKey(k) && k != ParameterFileName && k != MappingFile
      ensures k in pr + ConfigEntries(c) && (pr + ConfigEntries(c))[k] == Argument(a, k)
    {
      var value := Argument(a, k);
      assert k in pr && pr[k] == value;
      ArgumentIsNotConfigured(k);
    }
  }

  lemma ArgumentIsNotConfigured(k: Key)
    requires IsArgumentKey(k)
    ensures k.Source().None?
  {
  }

  /** The later assignments overwrite neither arguments nor configuration. */
  lemma LateKeyKeeps(pr: map<Key, Value>, a: Arguments, c: Configuration.Config, k: Key, v: Value)
    requires LateKey(k) && HoldsArguments(pr, a) && HoldsConfiguration(pr, c)
    ensures HoldsArguments(pr[k := v], a) && HoldsConfiguration(pr[k := v], c)
  {
    forall j | IsArgumentKey(j) && j != ParameterFileName && j != MappingFile
      ensures j in pr[k := v] && pr[k := v][j] == Argument(a, j)
    {
      var value := Argument(a, j);
      assert j in pr && pr[j] == value;
    }
    forall j: Key | j.Source().Some? && j != NumberOfCores
      ensures j in pr[k := v] && pr[k := v][j] == Entry(c, j)
    {
      var value := Entry(c, j);
      assert j in pr && pr[j] == value;
    }
  }

  /** `PR.update` stores every argument key. */
  lemma ArgumentStored(pr: map<Key, Value>, a: Arguments, k: Key)
    requires IsArgumentKey(k)
    ensures k in pr + ArgumentEntries(a) && (pr + ArgumentEntries(a))[k] == Argument(a, k)
  {
  }

  /** `PR.update` leaves the other keys alone. */
  lemma KeptByArguments(pr: map<Key, Value>, a: Arguments, k: Key)
    requires k in pr && !IsArgumentKey(k)
    ensures k in pr + ArgumentEntries(a) && (pr + ArgumentEntries(a))[k] == pr[k]
  {
  }

  /** `get_configuration` leaves the keys it does not feed alone. */
  lemma KeptByConfiguration(pr: map<Key, Value>, c: Configuration.Config, k: Key)
    requires k in pr && k.Source().None?
    ensures k in pr + ConfigEntries(c) && (pr + ConfigEntries(c))[k] == pr[k]
  {
  }

  lemma RunArgumentValues(pr: map<Key, Value>, a: Arguments)
    requires HoldsArguments(pr, a)
    ensures InFolder in pr && pr[InFolder] == Text(a.input)
         && OutFolder in pr && pr[OutFolder] == Text(a.output)
         && Rdb in pr && pr[Rdb] == Text(a.rdb)
         && Qcq in pr && pr[Qcq] == Number(a.qcThreshold)
         && Maxloose in pr && pr[Maxloose] == Flag(a.maxloose)
  {
    assert Argument(a, InFolder) == Text(a.input);
    assert Argument(a, OutFolder) == Text(a.output);
    assert Argument(a, Rdb) == Text(a.rdb);
    assert Argument(a, Qcq) == Number(a.qcThreshold);
    assert Argument(a, Maxloose) == Flag(a.maxloose);
  }

  lemma StageArgumentValues(pr: map<Key, Value>, a: Arguments)
    requires HoldsArguments(pr, a)
    ensures Trimq in pr && pr[Trimq] == Number(a.trimThreshold)
         && JoiningMethod in pr && pr[JoiningMethod] == Text(a.joiningMethod)
         && FastqP in pr && pr[FastqP] == Number(a.fastqP)
         && Depth in pr && pr[Depth] == Number(a.depth)
         && Fungus in pr && pr[Fungus] == Flag(a.fungus)
  {
    assert Argument(a, Trimq) == Number(a.trimThreshold);
    assert Argument(a, JoiningMethod) == Text(a.joiningMethod);
    assert Argument(a, FastqP) == Number(a.fastqP);
    assert Argument(a, Depth) == Number(a.depth);
    assert Argument(a, Fungus) == Flag(a.fungus);
  }

  lemma StageFolderValues(pr: map<Key, Value>, c: Configuration.Config)
    requires HoldsConfiguration(pr, c)
    ensures Ftrimmed in pr && pr[Ftrimmed] == Text(c.trimmed)
         && Fmerged in pr && pr[Fmerged] == Text(c.merged)
         && Fqc in pr && pr[Fqc] == Text(c.qualityStep)
         && Fchi in pr && pr[Fchi] == Text(c.chimeraRemoved)
  {
    assert Entry(c, Ftrimmed) == Text(c.trimmed);
    assert Entry(c, Fmerged) == Text(c.merged);
    assert Entry(c, Fqc) == Text(c.qualityStep);
    assert Entry(c, Fchi) == Text(c.chimeraRemoved);
  }

  lemma ResultFolderValues(pr: map<Key, Value>, c: Configuration.Config)
    requires HoldsConfiguration(pr, c)
    ensures Fotus in pr && pr[Fotus] == Text(c.otus)
         && Fdiv in pr && pr[Fdiv] == Text(c.diversityAnalyses)
         && Fothers in pr && pr[Fothers] == Text(c.others)
  {
    assert Entry(c, Fotus) == Text(c.otus);
    assert Entry(c, Fdiv) == Text(c.diversityAnalyses);
    assert Entry(c, Fothers) == Text(c.others);
  }

  lemma SilvaValues(pr: map<Key, Value>, c: Configuration.Config)
    requires HoldsConfiguration(pr, c)
    ensures SilvaTaxonomy in pr && pr[SilvaTaxonomy] == Text(c.silvaTaxonomy)
         && SilvaReferenceSeqs in pr && pr[SilvaReferenceSeqs] == Text(c.silvaReferenceSeqs)
         && SilvaCoreAlignment in pr && pr[SilvaCoreAlignment] == Text(c.silvaCoreAlignment)
         && SilvaChimRef in pr && pr[SilvaChimRef] == Text(c.silvaChimRef)
  {
    assert Entry(c, SilvaTaxonomy) == Text(c.silvaTaxonomy);
    assert Entry(c, SilvaReferenceSeqs) == Text(c.silvaReferenceSeqs);
    assert Entry(c, SilvaCoreAlignment) == Text(c.silvaCoreAlignment);
    assert Entry(c, SilvaChimRef) == Text(c.silvaChimRef);
  }

  lemma GgValues(pr: map<Key, Value>, c: Configuration.Config)
    requires HoldsConfiguration(pr, c)
    ensures GgTaxonomy in pr && pr[GgTaxonomy] == Text(c.ggTaxonomy)
         && GgReferenceSeqs in pr && pr[GgReferenceSeqs] == Text(c.ggReferenceSeqs)
         && GgCoreAlignment in pr && pr[GgCoreAlignment] == Text(c.ggCoreAlignment)
         && GgChimRef in pr && pr[GgChimRef] == Text(c.ggChimRef)
  {
    assert Entry(c, GgTaxonomy) == Text(c.ggTaxonomy);
    assert Entry(c, GgReferenceSeqs) == Text(c.ggReferenceSeqs);
    assert Entry(c, GgCoreAlignment) == Text(c.ggCoreAlignment);
    assert Entry(c, GgChimRef) == Text(c.ggChimRef);
  }

  lemma GeneralValues(pr: map<Key, Value>, c: Configuration.Config)
    requires HoldsConfiguration(pr, c)
    ensures UniteTaxonomy in pr && pr[UniteTaxonomy] == Text(c.uniteTaxonomy)
         && UniteReferenceSeqs in pr && pr[UniteReferenceSeqs] == Text(c.uniteReferenceSeqs)
         && SimilarityValue in pr && pr[SimilarityValue] == Text(c.similarity)
         && BlastEValueSetting in pr && pr[BlastEValueSetting] == Text(c.blastEValue)
  {
    assert Entry(c, UniteTaxonomy) == Text(c.uniteTaxonomy);
    assert Entry(c, UniteReferenceSeqs) == Text(c.uniteReferenceSeqs);
    assert Entry(c, SimilarityValue) == Text(c.similarity);
    assert Entry(c, BlastEValueSetting) == Text(c.blastEValue);
  }

  /** A dictionary holding the arguments, the configuration, the cores and
      the two file names is ready for the runners and shows them exactly
      `SettingsFor`. */
  lemma ReadyFromEntries(pr: map<Key, Value>, a: Arguments, c: Configuration.Config, parameterFile: string, mappingFile: string)
    requires c.Valid() && HoldsArguments(pr, a) && HoldsConfiguration(pr, c)
    requires NumberOfCores in pr && pr[NumberOfCores] == Number(a.numberOfCores)
    requires ParameterFileName in pr && pr[ParameterFileName] == Text(parameterFile)
    requires MappingFile in pr && pr[MappingFile] == Text(mappingFile)
    ensures ReadyMap(pr) && SettingsOf(pr) == SettingsFor(a, c, parameterFile, mappingFile)
  {
    RunArgumentValues(pr, a);
    StageArgumentValues(pr, a);
    StageFolderValues(pr, c);
    ResultFolderValues(pr, c);
    SilvaValues(pr, c);
    GgValues(pr, c);
    GeneralValues(pr, c);
  }

  /** After the arguments and the configuration, `others` can be formed
      from the output folder and the configured name. */
  lemma ConfiguredFolders(p0: map<Key, Value>, a: Arguments, c: Configuration.Config)
    requires c.Valid()
    ensures var p := p0 + ArgumentEntries(a) + ConfigEntries(c);
      && HasText(p, OutFolder) && p[OutFolder].text == a.output
      && HasFolder(p, Fothers) && p[Fothers].text == c.others
  {
    ArgumentsStored(p0, a);
    ConfigurationStored(p0 + ArgumentEntries(a), a, c);
    RunArgumentValues(p0 + ArgumentEntries(a) + ConfigEntries(c), a);
    ResultFolderValues(p0 + ArgumentEntries(a) + ConfigEntries(c), c);
  }

  /** The dictionary once lines 683-704 have run: every argument, every
      configured value, `others` and the cores from `-n`. */
  predicate Prepared(pr: map<Key, Value>, a: Arguments, c: Configuration.Config) {
    && HoldsArguments(pr, a) && HoldsConfiguration(pr, c)
    && Others in pr && pr[Others] == Text(OthersFolder(a.output, c))
    && NumberOfCores in pr && pr[NumberOfCores] == Number(a.numberOfCores)
  }

  /** Lines 683-704 store every argument and every configured value, keep
      the run identifier and leave `parameter_file_name` as `-p` gave it. */
  lemma ConfigurePrepares(p0: map<Key, Value>, a: Arguments, c: Configuration.Config)
    ensures var p := (p0 + ArgumentEntries(a) + ConfigEntries(c))
                       [Others := Text(OthersFolder(a.output, c))][NumberOfCores := Number(a.numberOfCores)];
      && Prepared(p, a, c)
      && (Id in p0 ==> Id in p && p[Id] == p0[Id])
      && ParameterFileName in p && p[ParameterFileName] == OptionalText(a.parameterFileName)
  {
    ArgumentsStored(p0, a);
    ArgumentStored(p0, a, ParameterFileName);
    var p1 := p0 + ArgumentEntries(a);
    if Id in p0 {
      KeptByArguments(p0, a, Id);
      KeptByConfiguration(p1, c, Id);
    }
    ConfigurationStored(p1, a, c);
    KeptByConfiguration(p1, c, ParameterFileName);
    var p2 := p1 + ConfigEntries(c);
    LateKeyKeeps(p2, a, c, Others, Text(OthersFolder(a.output, c)));
    LateKeyKeeps(p2[Others := Text(OthersFolder(a.output, c))], a, c, NumberOfCores, Number(a.numberOfCores));
  }

  /** Naming the parameter file keeps the dictionary prepared. */
  lemma ParameterFileNamed(pr: map<Key, Value>, a: Arguments, c: Configuration.Config, parameterFile: string)
    requires Prepared(pr, a, c)
    ensures var p := pr[ParameterFileName := Text(parameterFile)];
      Prepared(p, a, c) && ParameterFileName in p && p[ParameterFileName] == Text(parameterFile)
  {
    LateKeyKeeps(pr, a, c, ParameterFileName, Text(parameterFile));
  }

  /** Once both files are named, the dictionary is ready for the runners
      and shows them exactly `SettingsFor`. */
  lemma MappingFileNamed(pr: map<Key, Value>, a: Arguments, c: Configuration.Config, parameterFile: string, mappingFile: string)
    requires c.Valid() && Prepared(pr, a, c)
    requires ParameterFileName in pr && pr[ParameterFileName] == Text(parameterFile)
    ensures var p := pr[MappingFile := Text(mappingFile)];
      ReadyMap(p) && SettingsOf(p) == SettingsFor(a, c, parameterFile, mappingFile)
  {
    LateKeyKeeps(pr, a, c, MappingFile, Text(mappingFile));
    ReadyFromEntries(pr[MappingFile := Text(mappingFile)], a, c, parameterFile, mappingFile);
  }

  /** `PR`, the parameter dictionary of the run. */
  class RunParameters {
    var pr: map<Key, Value>

    /** `PR = dict({"id": ID})`. */
    constructor (timestamp: string)
      ensures pr == map[Id := Text(RunId(timestamp))]
    {
      pr := map[Id := Text(RunId(timestamp))];
    }

    /** `PR.update({...})` with the parsed arguments (lines 683-699). */
    method Update(a: Arguments)
      modifies this
      ensures pr == old(pr) + ArgumentEntries(a)
    {
      pr := pr + ArgumentEntries(a);
    }

    /** `get_configuration()` (lines 75-98): on success the twenty entries
        are stored over whatever was there; a failed lookup raises, which ends
        the script, and is returned instead. */
    method LoadConfiguration(ini: Configuration.Ini) returns (error: Option<Configuration.ConfigError>)
      modifies this
      ensures error.None? <==> Configuration.Loadable(ini)
      ensures error.Some? ==> Configuration.Load(ini) == Err(error.value) && pr == old(pr)
      ensures error.None? ==> pr == old(pr) + ConfigEntries(Configuration.Load(ini).value)
    {
      var r := Configuration.Load(ini);
      if r.Err? {
        return Some(r.error);
      }
      pr := pr + ConfigEntries(r.value);
      error := None;
    }

    /** Lines 683-704 in order: the arguments, `get_configuration()`,
        `others` and the cores. On success the dictionary holds every
        argument and every configured value, and keeps the run identifier. */
    method Configure(a: Arguments, ini: Configuration.Ini) returns (error: Option<Configuration.ConfigError>)
      modifies this
      ensures error.None? <==> Configuration.Loadable(ini)
      ensures error.Some? ==> Configuration.Load(ini) == Err(error.value) && pr == old(pr) + ArgumentEntries(a)
      ensures error.None? ==>
        var c := Configuration.Load(ini).value;
        && pr == (old(pr) + ArgumentEntries(a) + ConfigEntries(c))
                   [Others := Text(OthersFolder(a.output, c))][NumberOfCores := Number(a.numberOfCores)]
        && Prepared(pr, a, c)
        && (Id in old(pr) ==> Id in pr && pr[Id] == old(pr)[Id])
        && ParameterFileName in pr && pr[ParameterFileName] == OptionalText(a.parameterFileName)
    {
      ghost var p0 := pr;
      Update(a);
      error := LoadConfiguration(ini);
      if error.Some? {
        return;
      }
      var c := Configuration.Load(ini).value;
      ConfiguredFolders(p0, a, c);
      SetOthers();
      SetCores(a.numberOfCores);
      ConfigurePrepares(p0, a, c);
    }

    /** `PR['others'] = asfolder(PR['out_folder'] + PR['Fothers'])` (line 703):
        the configured name, already a folder, glued to the output folder. */
    method SetOthers()
      requires HasText(pr, OutFolder) && HasFolder(pr, Fothers)
      modifies this
      ensures pr == old(pr)[Others := Text(old(pr)[OutFolder].text + old(pr)[Fothers].text)]
    {
      pr := pr[Others := Text(AsFolder(pr[OutFolder].text + pr[Fothers].text))];
    }

    /** `PR['number_of_cores'] = arg.number_of_cores` (line 704): the
        command line replaces the configured `jobs_to_start`. */
    method SetCores(cores: int)
      modifies this
      ensures pr == old(pr)[NumberOfCores := Number(cores)]
    {
      pr := pr[NumberOfCores := Number(cores)];
    }

    /** `PR['parameter_file_name'] = PR['others'] + "para%s.txt" % PR['id']`
        (line 712). */
    method NameParameterFile()
      requires HasText(pr, Others) && HasText(pr, Id)
      modifies this
      ensures pr == old(pr)[ParameterFileName := Text(ParameterFileFor(old(pr)[Others].text, old(pr)[Id].text))]
    {
      pr := pr[ParameterFileName := Text(pr[Others].text + "para" + pr[Id].text + ".txt")];
    }

    /** Lines 714-718: without `-a` the mapping file goes into `others` and
        the flag is set; with `-a` the given file is used and, as written,
        the flag is never bound. */
    method NameMappingFile(supplied: Option<string>) returns (createMap: Option<bool>)
      requires HasText(pr, Others)
      modifies this
      ensures supplied.None? ==> createMap == Some(true) && pr == old(pr)[MappingFile := Text(old(pr)[Others].text + "map.tsv")]
      ensures supplied.Some? ==> createMap == None && pr == old(pr)[MappingFile := Text(supplied.value)]
    {
      if supplied.None? {
        createMap := Some(true);
        pr := pr[MappingFile := Text(pr[Others].text + "map.tsv")];
      } else {
        createMap := None;
        pr := pr[MappingFile := Text(supplied.value)];
      }
    }

    /** Lines 714-718 as evidently intended: the flag is bound on both
        paths, false when `-a` names the mapping file. */
    method ChooseMappingFile(supplied: Option<string>) returns (createMap: bool)
      requires HasText(pr, Others)
      modifies this
      ensures createMap <==> supplied.None?
      ensures pr == old(pr)[MappingFile := Text(MappingFileFor(old(pr)[Others].text, supplied))]
    {
      if supplied.None? {
        createMap := true;
        pr := pr[MappingFile := Text(pr[Others].text + "map.tsv")];
      } else {
        createMap := false;
        pr := pr[MappingFile := Text(supplied.value)];
      }
    }

    /** The dispatch at lines 733-762 over the entries the runners read
        from the dictionary. */
    method Plan(beginwith: Option<string>, stopAt: Option<string>, createMap: Option<bool>, ls: Listings)
      returns (run: Run)
      requires ReadyMap(pr)
      ensures run == Dispatch(SettingsOf(pr), SelectRunner(beginwith, stopAt), createMap, ls)
    {
      run := Execute(SettingsOf(pr), beginwith, stopAt, createMap, ls);
    }
  }

  /** The parameter file of a run: `others + "para" + id + ".txt"`. */
  function ParameterFileFor(others: string, id: string): (path: string)
    ensures |path| == |others| + |id| + 8
    ensures path[..|others|] == others && path[|path| - 4..] == ".txt"
  {
    others + "para" + id + ".txt"
  }

  /** The mapping file of a run: the one `-a` names, or `map.tsv` in `others`. */
  function MappingFileFor(others: string, supplied: Option<string>): (path: string)
    ensures supplied.Some? ==> path == supplied.value
    ensures supplied.None? ==> |path| == |others| + 7 && path[..|others|] == others
  {
    if supplied.Some? then supplied.value else others + "map.tsv"
  }

  // ---------------------------------------------------------------------------
  // The script
  // ---------------------------------------------------------------------------

  /** How a run of the script ends: `get_configuration` raised, the output
      folder already existed (`sys.exit()`), an `os.mkdir` raised, or the
      runner was called. */
  datatype Outcome =
    | ConfigurationFailed(error: Configuration.ConfigError)
    | OutputExists
    | FolderNotCreated(folder: string)
    | Finished(run: Run)

  /** `os.mkdir(path)` over the folders that exist, each named with a final
      `/`: it raises for the empty path and for a folder that exists. */
  function MakeFolder(folders: set<string>, path: string): (r: Option<set<string>>)
    ensures r.None? <==> path == "" || AsFolder(path) in folders
    ensures r.Some? ==> AsFolder(path) in r.value && folders <= r.value
  {
    if path == "" || AsFolder(path) in folders then None else Some(folders + {AsFolder(path)})
  }

  /** `os.path.isdir(path)`. */
  predicate IsDir(folders: set<string>, path: string) {
    path != "" && AsFolder(path) in folders
  }

  /** The parameter file the script writes: its path and its text. */
  type Written = (string, string)

  /** The file `write_parameter_file` writes when `-p` is not given. */
  function ParameterFile(timestamp: string, a: Arguments, c: Configuration.Config): Written
    requires c.Valid()
  {
    (ParameterFileFor(OthersFolder(a.output, c), RunId(timestamp)),
     Reference.ParameterText(Reference.Choose(a.rdb, a.fungus), c, a.numberOfCores))
  }

  /** The runner the dispatch calls, over the dictionary as filled, with
      the given mapping flag. */
  function Launch(a: Arguments, c: Configuration.Config, parameterFile: string, createMap: Option<bool>, ls: Listings): Run
    requires c.Valid()
  {
    Dispatch(SettingsFor(a, c, parameterFile, MappingFileFor(OthersFolder(a.output, c), a.mappingFile)),
             SelectRunner(a.beginwith, a.stopAt), createMap, ls)
  }

  /** What the `__main__` block as written does (lines 700-762): the
      configuration, the output folder, the parameter file with its
      `os.mkdir(others)` (line 146), the mapping file, the second
      `os.mkdir(others)` (line 723), the runner. */
  function ScriptRun(timestamp: string, a: Arguments, ini: Configuration.Ini, existing: set<string>, ls: Listings)
    : (Outcome, Option<Written>)
  {
    match Configuration.Load(ini)
    case Err(e) => (ConfigurationFailed(e), None)
    case Ok(c) => ScriptWith(timestamp, a, c, existing, ls)
  }

  /** The block as written once the configuration has loaded. */
  function ScriptWith(timestamp: string, a: Arguments, c: Configuration.Config, existing: set<string>, ls: Listings)
    : (Outcome, Option<Written>)
    requires c.Valid()
  {
    var others := OthersFolder(a.output, c);
    var createMap := if a.mappingFile.None? then Some(true) else None;
    if IsDir(existing, a.output) then (OutputExists, None)
    else match MakeFolder(existing, a.output)
    case None => (FolderNotCreated(a.output), None)
    case Some(folders) =>
      if a.parameterFileName.None? then
        match MakeFolder(folders, others)
        case None => (FolderNotCreated(others), None)
        case Some(withOthers) =>
          var written := ParameterFile(timestamp, a, c);
          match MakeFolder(withOthers, others)
          case None => (FolderNotCreated(others), Some(written))
          case Some(_) => (Finished(Launch(a, c, written.0, createMap, ls)), Some(written))
      else
        match MakeFolder(folders, others)
        case None => (FolderNotCreated(others), None)
        case Some(_) => (Finished(Launch(a, c, a.parameterFileName.value, createMap, ls)), None)
  }

  /** The `__main__` block as written, executed on the dictionary. */
  method Script(timestamp: string, a: Arguments, ini: Configuration.Ini, existing: set<string>, ls: Listings)
    returns (outcome: Outcome, written: Option<Written>)
    ensures (outcome, written) == ScriptRun(timestamp, a, ini, existing, ls)
  {
    written := None;
    var params := new RunParameters(timestamp);
    var error := params.Configure(a, ini);
    if error.Some? {
      return ConfigurationFailed(error.value), None;
    }
    var c := Configuration.Load(ini).value;
    var others := params.pr[Others].text;
    if IsDir(existing, a.output) {
      return OutputExists, None;
    }
    var folders := MakeFolder(existing, a.output);
    if folders.None? {
      return FolderNotCreated(a.output), None;
    }
    var parameterFile: string;
    if a.parameterFileName.None? {
      ghost var before := params.pr;
      params.NameParameterFile();
      parameterFile := params.pr[ParameterFileName].text;
      ParameterFileNamed(before, a, c, parameterFile);
      var text := Reference.ParameterText(Reference.Choose(a.rdb, a.fungus), c, a.numberOfCores);
      folders := MakeFolder(folders.value, others);
      if folders.None? {
        return FolderNotCreated(others), None;
      }
      written := Some((parameterFile, text));
    } else {
      parameterFile := a.parameterFileName.value;
    }
    ghost var named := params.pr;
    var createMap := params.NameMappingFile(a.mappingFile);
    MappingFileNamed(named, a, c, parameterFile, MappingFileFor(others, a.mappingFile));
    folders := MakeFolder(folders.value, others);
    if folders.None? {
      return FolderNotCreated(others), written;
    }
    var run := params.Plan(a.beginwith, a.stopAt, createMap, ls);
    return Finished(run), written;
  }

  /** The block as evidently intended: `others` is created once, before the
      parameter file is written into it, and the mapping flag is bound on
      both paths, false when `-a` names the mapping file. */
  function RepairedRun(timestamp: string, a: Arguments, ini: Configuration.Ini, existing: set<string>, ls: Listings)
    : (Outcome, Option<Written>)
  {
    match Configuration.Load(ini)
    case Err(e) => (ConfigurationFailed(e), None)
    case Ok(c) => RepairedWith(timestamp, a, c, existing, ls)
  }

  /** The block as evidently intended once the configuration has loaded. */
  function RepairedWith(timestamp: string, a: Arguments, c: Configuration.Config, existing: set<string>, ls: Listings)
    : (Outcome, Option<Written>)
    requires c.Valid()
  {
    var others := OthersFolder(a.output, c);
    var createMap := Some(a.mappingFile.None?);
    if IsDir(existing, a.output) then (OutputExists, None)
    else match MakeFolder(existing, a.output)
    case None => (FolderNotCreated(a.output), None)
    case Some(folders) =>
      match MakeFolder(folders, others)
      case None => (FolderNotCreated(others), None)
      case Some(_) =>
        if a.parameterFileName.None? then
          var written := ParameterFile(timestamp, a, c);
          (Finished(Launch(a, c, written.0, createMap, ls)), Some(written))
        else
          (Finished(Launch(a, c, a.parameterFileName.value, createMap, ls)), None)
  }

  /** The block as evidently intended, executed on the dictionary. */
  method RepairedScript(timestamp: string, a: Arguments, ini: Configuration.Ini, existing: set<string>, ls: Listings)
    returns (outcome: Outcome, written: Option<Written>)
    ensures (outcome, written) == RepairedRun(timestamp, a, ini, existing, ls)
  {
    written := None;
    var params := new RunParameters(timestamp);
    var error := params.Configure(a, ini);
    if error.Some? {
      return ConfigurationFailed(error.value), None;
    }
    var c := Configuration.Load(ini).value;
    var others := params.pr[Others].text;
    if IsDir(existing, a.output) {
      return OutputExists, None;
    }
    var folders := MakeFolder(existing, a.output);
    if folders.None? {
      return FolderNotCreated(a.output), None;
    }
    folders := MakeFolder(folders.value, others);
    if folders.None? {
      return FolderNotCreated(others), None;
    }
    var parameterFile: string;
    if a.parameterFileName.None? {
      ghost var before := params.pr;
      params.NameParameterFile();
      parameterFile := params.pr[ParameterFileName].text;
      ParameterFileNamed(before, a, c, parameterFile);
      var text := Reference.ParameterText(Reference.Choose(a.rdb, a.fungus), c, a.numberOfCores);
      written := Some((parameterFile, text));
    } else {
      parameterFile := a.parameterFileName.value;
    }
    ghost var named := params.pr;
    var createMap := params.ChooseMappingFile(a.mappingFile);
    MappingFileNamed(named, a, c, parameterFile, MappingFileFor(others, a.mappingFile));
    var run := params.Plan(a.beginwith, a.stopAt, Some(createMap), ls);
    return Finished(run), written;
  }

  // ---------------------------------------------------------------------------
  // Properties of the script
  // ---------------------------------------------------------------------------

  /** The folders `os.mkdir` can create: the output folder does not exist and
      `others` does not exist once the output folder has been made. */
  predicate Fresh(a: Arguments, c: Configuration.Config, existing: set<string>) {
    && a.output != "" && AsFolder(a.output) !in existing
    && AsFolder(OthersFolder(a.output, c)) !in existing + {AsFolder(a.output)}
  }

  /** On fresh folders both `os.mkdir` calls succeed. */
  lemma FreshFolders(a: Arguments, c: Configuration.Config, existing: set<string>)
    requires Fresh(a, c, existing)
    ensures !IsDir(existing, a.output)
    ensures MakeFolder(existing, a.output) == Some(existing + {AsFolder(a.output)})
    ensures MakeFolder(existing + {AsFolder(a.output)}, OthersFolder(a.output, c)).Some?
  {
  }

  /** As written, with `-p` on fresh folders the runner is called. */
  lemma WrittenLaunch(timestamp: string, a: Arguments, c: Configuration.Config, existing: set<string>, ls: Listings)
    requires c.Valid() && Fresh(a, c, existing) && a.parameterFileName.Some?
    ensures ScriptWith(timestamp, a, c, existing, ls) ==
      (Finished(Launch(a, c, a.parameterFileName.value, if a.mappingFile.None? then Some(true) else None, ls)), None)
  {
    FreshFolders(a, c, existing);
  }

  /** As written, a run without `-p` never reaches a runner: whatever
      exists, the second `os.mkdir(others)` (or the first) raises. */
  lemma OthersCreatedTwice(timestamp: string, a: Arguments, c: Configuration.Config, existing: set<string>, ls: Listings)
    requires c.Valid() && a.parameterFileName.None?
    requires a.output != "" && !IsDir(existing, a.output)
    ensures ScriptWith(timestamp, a, c, existing, ls).0 == FolderNotCreated(OthersFolder(a.output, c))
  {
    var others := OthersFolder(a.output, c);
    var folders := existing + {AsFolder(a.output)};
    assert MakeFolder(existing, a.output) == Some(folders);
    match MakeFolder(folders, others)
    case None =>
    case Some(withOthers) =>
      assert AsFolder(others) in withOthers;
  }

  /** As written, `-a` with `-p` on fresh folders runs the two runners that
      read the unbound flag up to OTU picking and then fails, so no diversity
      analysis is run. */
  lemma SuppliedMapStopsAfterPicking(timestamp: string, a: Arguments, c: Configuration.Config, existing: set<string>, ls: Listings)
    requires c.Valid() && Fresh(a, c, existing)
    requires a.parameterFileName.Some? && a.mappingFile.Some?
    requires a.input != "" && KnownMethod(a.joiningMethod)
    requires a.beginwith == Some("otu_picking") || (a.beginwith != Some("diversity_analysis") && a.stopAt != Some("chimera_removal"))
    ensures var outcome := ScriptWith(timestamp, a, c, existing, ls).0;
      && outcome.Finished? && outcome.run.failure == Some(MappingFlagUnbound)
      && Diversity !in Tags(outcome.run.steps)
  {
    var s := SettingsFor(a, c, a.parameterFileName.value, MappingFileFor(OthersFolder(a.output, c), a.mappingFile));
    WrittenLaunch(timestamp, a, c, existing, ls);
    var run := Launch(a, c, a.parameterFileName.value, None, ls);
    if a.beginwith == Some("otu_picking") {
      assert run == StartOtuPicking(s, None, ls);
      StartOtuPickingStages(s, None, ls);
      NoDiversityIn(Tags(run.steps), [OtuPicking]);
    } else {
      assert run == FullAnalysis(s, None, ls);
      FullAnalysisUnbound(s, ls);
      NoDiversityIn(Tags(run.steps), [Trimming, Merging, QualityFiltering, ChimeraRemoval, OtuPicking]);
    }
  }

  lemma NoDiversityIn(tags: seq<Stage>, stages: seq<Stage>)
    requires tags == stages && forall i :: 0 <= i < |stages| ==> stages[i] != Diversity
    ensures Diversity !in tags
  {
  }

  /** As intended, fresh folders, a non-empty `-i` and a known joining
      method make the run finish: the chosen runner runs exactly its stages,
      the mapping stage exactly when `-a` is not given, and the parameter
      file is written exactly when `-p` is not given. */
  lemma RepairedRunCompletes(timestamp: string, a: Arguments, c: Configuration.Config, existing: set<string>, ls: Listings)
    requires c.Valid() && Fresh(a, c, existing)
    requires a.input != "" && KnownMethod(a.joiningMethod)
    ensures var (outcome, written) := RepairedWith(timestamp, a, c, existing, ls);
      && outcome.Finished? && outcome.run.failure == None
      && Tags(outcome.run.steps) == Expected(SelectRunner(a.beginwith, a.stopAt), a.mappingFile.None?)
      && (written.Some? <==> a.parameterFileName.None?)
  {
    var parameterFile := if a.parameterFileName.None? then ParameterFile(timestamp, a, c).0 else a.parameterFileName.value;
    var s := SettingsFor(a, c, parameterFile, MappingFileFor(OthersFolder(a.output, c), a.mappingFile));
    FreshFolders(a, c, existing);
    assert RepairedWith(timestamp, a, c, existing, ls).0 == Finished(Dispatch(s, SelectRunner(a.beginwith, a.stopAt), Some(a.mappingFile.None?), ls));
    RunnerStages(s, SelectRunner(a.beginwith, a.stopAt), a.mappingFile.None?, ls);
  }

  /** The defaults of the command line: no `-b`, `-s`, `-a` or `-p`,
      fastq-join and SILVA, so the full analysis is chosen. */
  lemma Defaults(input: string, output: string)
    ensures var a := WithDefaults(input, output);
      && a.beginwith.None? && a.stopAt.None? && a.mappingFile.None? && a.parameterFileName.None?
      && SelectRunner(a.beginwith, a.stopAt) == WholeAnalysis
      && KnownMethod(a.joiningMethod) && Reference.Choose(a.rdb, a.fungus) == Reference.Silva
  {
  }

  /** As written, a run with only `-i` and `-o` given never reaches a
      runner. */
  lemma DefaultRunFails(timestamp: string, input: string, output: string, c: Configuration.Config,
                        existing: set<string>, ls: Listings)
    requires c.Valid() && output != "" && !IsDir(existing, output)
    ensures ScriptWith(timestamp, WithDefaults(input, output), c, existing, ls).0
              == FolderNotCreated(OthersFolder(output, c))
  {
    Defaults(input, output);
    OthersCreatedTwice(timestamp, WithDefaults(input, output), c, existing, ls);
  }

  /** As intended, a run with only `-i` and `-o` given on fresh folders runs
      every stage of the full analysis, the mapping stage included, and
      writes the parameter file. */
  lemma DefaultRunCompletes(timestamp: string, input: string, output: string, c: Configuration.Config,
                            existing: set<string>, ls: Listings)
    requires c.Valid() && Fresh(WithDefaults(input, output), c, existing) && input != ""
    ensures var r := RepairedWith(timestamp, WithDefaults(input, output), c, existing, ls);
      && r.0.Finished? && r.0.run.failure == None && r.1.Some?
      && Tags(r.0.run.steps) == Expected(WholeAnalysis, true)
  {
    var a := WithDefaults(input, output);
    Defaults(input, output);
    RepairedRunCompletes(timestamp, a, c, existing, ls);
  }
}
