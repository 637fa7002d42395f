# qiime_analysis in Dafny

A model of the decision and naming layer of `qiime_analysis.py`, a script that
runs a microbiome amplicon pipeline by calling external tools in a fixed order:
read trimming (`bbduk.sh`), pair merging (`fastq-join` or `bbmerge.sh`),
quality filtering, chimera removal, open-reference OTU picking, an optional
mapping table, and the core diversity analyses.

The external tools are not modelled. What the script decides is:

- which files each stage processes and under which names;
- which reference database fills each template and each command;
- which stages run, in which order, and where the run stops.

All of this is stated as data and proved about.

The modules follow the script:

| module | what it models |
|---|---|
| `Text` | Python's `in`, `str.replace`, `str.split`, `str.join` and `int` on strings; `%d`; `asfolder` |
| `Listing` | `sorted` on a directory listing (Python's string order) |
| `Configuration` | `get_configuration`: the twenty `(section, option)` lookups of the INI file and how each one fails |
| `Stages` | the per-file stages: the R1/R2 pairing, the merged names, the quality-control and chimera names; one job record per external call |
| `MapFile` | `create_map`: the six-column mapping table |
| `Reference` | `write_parameter_file`, `pickotus`, `corediv`: the database choice, the three parameter templates and the command variants |
| `Workflow` | the four runners and the dispatch between them; a run is the list of steps it executes plus the error that ended it, if any |
| `Frontend` | the `__main__` block: the run identifier, the parameter dictionary `PR` as a class whose methods make the block's assignments, the folder checks, and the script as written and as evidently intended |

Directory listings, the timestamp, the parsed command line, the parsed INI file
and the set of existing folders are inputs.
`os.mkdir` and `os.path.isdir` are functions over that set of folders.
The parameter file the script writes is returned as a (path, text) pair.

The script reads twenty configuration options: seven folder
names, the job count, four SILVA entries (three `SILVA`, one `CHIMERA`), four
GreenGenes entries (three `GG`, one `CHIMERA`), two UNITE entries, the
similarity and the BLAST e-value (qiime_analysis.py:79-98).

## Model

| member | source | states |
|---|---|---|
| Text.AsFolder | qiime_analysis.py:50-54 | the result is non-empty and ends with `/`; it equals the input exactly when the input already ends with `/`, and otherwise it is the input followed by `/` |
| Text.AsFolderIdempotent | qiime_analysis.py:50-54 | applying `asfolder` twice gives the same folder as applying it once |
| Text.Split | qiime_analysis.py:439 | `str.split` always yields at least one field |
| Text.JoinSplit | qiime_analysis.py:439 | joining the fields of `s.split(sep)` with `sep` gives back `s` |
| Text.SplitFirstField | qiime_analysis.py:439 | the first field of `s.split("_")` is the longest `_`-free prefix of `s` |
| Text.ReplaceIsJoinOfSplit | qiime_analysis.py:175 | `s.replace(p, r)` equals `r.join(s.split(p))` |
| Text.ReplaceAbsent | qiime_analysis.py:175 | `replace` leaves a string without the pattern unchanged |
| Text.ReplaceIntroduces | qiime_analysis.py:175 | when the pattern occurs, the replacement occurs in the result |
| Text.ReplaceKeepsLength | qiime_analysis.py:175 | a replacement as long as the pattern keeps the string's length |
| Text.ReplaceSingle | qiime_analysis.py:222 | a pattern occurring exactly once, between `b` and `e`, turns `b + p + e` into `b + r + e` |
| Text.ReplaceCharIsWithout | qiime_analysis.py:41-44 | `replace(c, "")` removes exactly the character `c` and keeps the rest in order |
| Text.WithoutTwice | qiime_analysis.py:41-44 | removing one set of characters and then another equals removing both sets at once |
| Text.WithoutExcludes | qiime_analysis.py:41-44 | every character left after removal comes from the input and is none of the removed ones |
| Text.DigitsOfFormat | qiime_analysis.py:110 | the decimal digits `%d` writes for a non-negative number have that number as their value |
| Text.ParseFormat | qiime_analysis.py:86 | `int` reads back every integer `%d` writes |
| Listing.LexTotal | qiime_analysis.py:173 | any two file names are ordered one way or the other |
| Listing.LexAntisymmetric | qiime_analysis.py:173 | names ordered both ways are equal |
| Listing.LexTransitive | qiime_analysis.py:173 | the name order is transitive |
| Listing.Insert | qiime_analysis.py:173 | inserting into a sorted list keeps it sorted and adds exactly the one element |
| Listing.Sort | qiime_analysis.py:173 | `files.sort()` yields a sorted permutation of the listing |
| Listing.SortUnique | qiime_analysis.py:173 | two sorted permutations of the same elements are equal, so the sorted listing is unique |
| Listing.HeadIsLeast | qiime_analysis.py:173 | the first name of a sorted listing is at most every name in it |
| Configuration.Get | qiime_analysis.py:87 | `cp.get` succeeds exactly when the option is present and then returns its text; otherwise the error names the missing option |
| Configuration.Folder | qiime_analysis.py:79-85 | a folder option is read exactly when it is present and non-empty; the value is `asfolder` of its text and ends with `/`; the error tells a missing option from an empty one |
| Configuration.ToInt | qiime_analysis.py:86 | `int` succeeds exactly on an integer literal and gives its value; otherwise the error carries the text |
| Configuration.Load | qiime_analysis.py:75-98 | loading succeeds exactly when every option is present, no folder name is empty and `jobs_to_start` is an integer; the result then has seven folders ending with `/` and every field is its option's value; a failure names an option that is missing or empty, or the non-integer text |
| Stages.R1Files | qiime_analysis.py:174 | `ins1` holds each listed file containing `_R1_` as often as it is listed, and nothing else; a sorted listing gives a sorted `ins1` |
| Stages.Pairing | qiime_analysis.py:172-175 | `ins1` is sorted and holds exactly the listed files containing `_R1_`; `ins2` has the same length, and each `ins2[i]` is `ins1[i]` with `_R1_` replaced by `_R2_`, contains `_R2_` and has the same length |
| Stages.ForwardIsSortedR1Files | qiime_analysis.py:172-174 | filtering the sorted listing gives the sorted list of the filtered files |
| Stages.TrimKeepsNames | qiime_analysis.py:180-187 | trimming makes one job per forward file; both reads are taken from the input folder and written to the output folder under their own names, with the trim threshold |
| Stages.MergeNames | qiime_analysis.py:217-239 | merging makes one job per forward file; it reads both reads, writes the forward name without `_L001_R1_001`, and uses the chosen merger |
| Stages.MergedNameCutsLane | qiime_analysis.py:222 | a name with one lane suffix merges into the name without that suffix |
| Stages.IlluminaMerged | qiime_analysis.py:268 | `sample1_S1_L001_R1_001.fastq` merges into `sample1_S1.fastq` |
| Stages.IlluminaMate | qiime_analysis.py:175 | `sample1_S1_L001_R1_001.fastq` pairs with `sample1_S1_L001_R2_001.fastq` |
| Stages.QualityControlNames | qiime_analysis.py:306-327 | quality control makes one job per listed file, not only per R1 file; each job reads `in + i`, uses scratch folder `out + "temp" + i + "/"`, sample id `i` without `.fastq`, output `out + i` with `.fastq` turned into `.fasta`, and the threshold |
| Stages.FastqNames | qiime_analysis.py:316-318 | `<sample>.fastq` gets sample id `<sample>` and output `<sample>.fasta` |
| Stages.ChimeraReference | qiime_analysis.py:350-371 | chimera removal makes one job per listed file, with the SILVA reference exactly when `rdb == "silva"` and the GreenGenes reference otherwise; for a file `i` the job reads `in + i`, works in the scratch folder `out + "temp" + i + "/"`, writes the chimera report into `temp + i`, writes the filtered file to `out + i`, and reads the non-chimera list from the report folder |
| MapFile.SampleIdOf | qiime_analysis.py:438-439 | the sample id has no `_` and is the longest `_`-free prefix of the name without `.fasta` |
| MapFile.Broadcast | qiime_analysis.py:442-446 | a scalar column assignment fills every row with the value |
| MapFile.CreateMap | qiime_analysis.py:420-447 | the table has a header row in the order `#SampleID, BarcodeSequence, LinkerPrimerSequence, Read, File, Description`; there is one row per listed file, holding its sample id, two empty fields, `R1`, the file name and `single_file` |
| MapFile.SampleIdIsFirstField | qiime_analysis.py:438-439 | a stripped name `<id>_<rest>` with `_`-free `<id>` has sample id `<id>`; so has an `_`-free `<id>.fasta` |
| Reference.Choose | qiime_analysis.py:103-133 | SILVA exactly when `rdb == "silva"`; UNITE exactly when `rdb` is not SILVA and the fungal flag is set; GreenGenes otherwise |
| Reference.Lookup | qiime_analysis.py:104-145 | a template key has a value exactly when a template line holds that key |
| Reference.LookupFirst | qiime_analysis.py:104-145 | a key's value is the one on the first line that holds it |
| Reference.SilvaWins | qiime_analysis.py:103-116 | `rdb == "silva"` wins over the fungal flag, and the template then names the SILVA reference sequences |
| Reference.TemplateKeys | qiime_analysis.py:104-145 | the fungal template has the BLAST assignment method and the e-value and lacks the PyNAST alignment and the similarity; the SILVA and GreenGenes templates are the reverse; all three name the taxonomy, the reference sequences and the job count |
| Reference.JobsRoundTrip | qiime_analysis.py:110 | every template's job count is the core count written with `%d`, and `int` reads it back as the same number |
| Reference.RenderSplits | qiime_analysis.py:104-145 | the rendered template lines split at newlines back into the indented lines, then the closing indentation |
| Reference.FileTextLines | qiime_analysis.py:104-145 | the file text splits into an empty line, the indented template lines and the closing indentation |
| Reference.ParameterFileLines | qiime_analysis.py:102-149 | the written parameter file, read line by line, is the chosen template's lines in order, whenever no configured value spans several lines |
| Reference.PickOtusVariants | qiime_analysis.py:377-418 | picking reads every `.fasta` file of the input folder with the parameter file and the core count. Outside the fungal case it picks against the chosen database's reference sequences and then filters the picked table against that same reference. The fungal case picks without a reference, suppresses alignment and tree, and filters nothing |
| Reference.CoreDivReadsPickedTable | qiime_analysis.py:450-478 | the diversity command drops the tree exactly for a fungal run; a non-fungal run reads the picked table, not the close-reference one the filter wrote, with `rep_set.tre` beside it; a fungal run reads `otu_table_mc2_w_tax.biom` |
| Workflow.FoldersOf | qiime_analysis.py:491-496 | each stage folder is the output folder glued to the configured name, with no separator added, and ends with `/` |
| Workflow.TagsAppend | qiime_analysis.py:498-511 | the stages of consecutive steps are concatenated |
| Workflow.MergeFor | qiime_analysis.py:499-504 | a merge step exists exactly for `fastq-join` and `bbmerge` |
| Workflow.MergerChoice | qiime_analysis.py:499-504 | the merge step reads the trimmed folder and writes the merged folder; its jobs are those of `mergefolderfastq` for `fastq-join` and of `mergefolderbb` for `bbmerge`, one per forward file, with `-p` or `maxloose` and each output the merged name |
| Workflow.PickFor | qiime_analysis.py:507 | OTU picking as the runners call it reads the chimera-free folder it is given and writes the OTU folder; without the fungal flag it always picks against a reference and filters, and outside SILVA the reference is GreenGenes |
| Workflow.MapAndDiversity | qiime_analysis.py:509-511 | reading the unbound mapping flag ends the run with the steps done so far; a bound flag completes the run without error, adding one working stage, the diversity analysis, which reads the OTU folder and writes the diversity folder |
| Workflow.MapAndDiversityStages | qiime_analysis.py:509-511 | with the flag bound, the mapping step follows exactly when the flag is set, and the diversity analysis comes last |
| Workflow.MapAndDiversitySound | qiime_analysis.py:509-511 | mapping and diversity add only steps that keep the promises of `Sound` |
| Workflow.Preprocess | qiime_analysis.py:498-508 | with a known joining method the stages are trim, merge, quality control, chimera removal, with no error; an unknown method stops after trimming with that method's error; the stages read the input, trimmed, merged and quality-control folders and write the trimmed, merged, quality-control and chimera-free folders, each listing the folder it reads; every step is sound |
| Workflow.Preprocessing | qiime_analysis.py:498-508 | executing the four stages one after the other gives exactly `Preprocess` |
| Workflow.MappingAndDiversity | qiime_analysis.py:509-511 | executing the mapping and diversity stages gives exactly `MapAndDiversity` |
| Workflow.StopAtChimeraRemoval | qiime_analysis.py:513-539 | an empty input folder fails before any stage; otherwise the run is exactly the four preprocessing stages; with a known joining method it ends without error after trim, merge, quality control and chimera removal, having written exactly the trimmed, merged, quality-control and chimera-free folders |
| Workflow.StartDiversityAnalysis | qiime_analysis.py:561-573 | an empty input folder fails before any stage; otherwise the run is the diversity analysis alone, with no error, reading the input folder and writing the diversity folder, and it drops the tree exactly for a fungal run |
| Workflow.SelectRunner | qiime_analysis.py:733-762 | `-b otu_picking` takes precedence, then `-b diversity_analysis`, then `-s chimera_removal`; anything else runs the full analysis |
| Workflow.Execute | qiime_analysis.py:733-762 | running the chosen runner step by step gives exactly the run `Dispatch` specifies |
| Workflow.FullAnalysisStops | qiime_analysis.py:480-511 | `full_analysis` fails before any stage on an empty input folder; it stops after trimming on an unknown joining method; with the flag unbound it stops after OTU picking with the unbound-flag error |
| Workflow.FullAnalysisUnbound | qiime_analysis.py:480-511 | with the flag unbound, `full_analysis` runs trim, merge, quality control, chimera removal and OTU picking, then fails |
| Workflow.FullAnalysisStages | qiime_analysis.py:480-511 | with the flag bound, `full_analysis` runs all six stages with the mapping stage exactly when the flag is set, and ends without error |
| Workflow.FullAnalysisSound | qiime_analysis.py:480-511 | every step of `full_analysis` is sound, and the mapping table lists the quality-control folder |
| Workflow.StartOtuPickingStages | qiime_analysis.py:542-559 | `start_otu_pickng` fails before any stage on an empty input folder; with the flag unbound it stops after OTU picking; with the flag bound it runs picking, the mapping stage exactly when the flag is set, then diversity |
| Workflow.StartOtuPickingSound | qiime_analysis.py:542-559 | every step of `start_otu_pickng` is sound, and the mapping table lists the input folder |
| Workflow.RunnerStages | qiime_analysis.py:733-762 | with a non-empty input, a known joining method and the flag bound, each runner runs exactly its expected stages and ends without error; its stages write exactly the runner's folders, in order, and each reads the folder the one before it wrote |
| Workflow.EmptyInputRunsNothing | qiime_analysis.py:733-762 | an empty `-i` makes every runner fail before any stage |
| Workflow.UnknownMethodStopsAfterTrim | qiime_analysis.py:498-504 | an unknown joining method stops both merging runners after trimming with that method's error |
| Workflow.RunsAreSound | qiime_analysis.py:733-762 | every step of every run keeps the promises of `Sound` |
| Workflow.PreprocessThenPick | qiime_analysis.py:498-507 | in `full_analysis` the five stages up to OTU picking read the input, trimmed, merged, quality-control and chimera-free folders and write the trimmed, merged, quality-control, chimera-free and OTU folders, each listing the folder it reads |
| Workflow.FullAnalysisChained | qiime_analysis.py:480-511 | `full_analysis` is a chain from the input folder: trimmed, merged, quality-control, chimera-free, OTU and diversity folders, each stage reading what the one before wrote; it writes a prefix of them and all of them when it ends without error |
| Workflow.PickedChained | qiime_analysis.py:498-511 | with a known joining method, `full_analysis` writes the first five folders and, with the flag bound, the diversity folder as well, as one chain |
| Workflow.StopAtChimeraRemovalChained | qiime_analysis.py:513-539 | `stop_at_chimera_removal` is a chain from the input folder through the trimmed, merged, quality-control and chimera-free folders |
| Workflow.StartOtuPickingChained | qiime_analysis.py:542-559 | `start_otu_pickng` is a chain from `asfolder` of the input folder through the OTU and diversity folders |
| Workflow.StartDiversityAnalysisChained | qiime_analysis.py:561-573 | `start_diversity_analysis` reads the input folder and writes the diversity folder |
| Workflow.RunsAreChained | qiime_analysis.py:733-762 | every run is a chain from the input folder through the folders its runner writes, each stage reading what the one before wrote and listing the folder it reads; it stops early only on an error |
| Workflow.MappingTables | qiime_analysis.py:509-510 | every mapping step writes the mapping file with a table of one row per file of the folder it is built from, in listing order, holding the file's name and sample id; that folder is the quality-control folder in a full analysis and the input folder when starting at OTU picking (line 557) |
| Frontend.RunId | qiime_analysis.py:40-45 | the identifier has at most 14 characters and none of them is a space, colon, dot or hyphen; it is the prefix of that length of the timestamp with those characters removed, and it is shorter than 14 only when the stripped timestamp is |
| Frontend.StripsSeparators | qiime_analysis.py:41-44 | the four `replace` calls remove exactly the four separator characters |
| Frontend.ConfigEntriesFromIni | qiime_analysis.py:79-98 | `get_configuration` stores exactly the keys fed from the file, each with the value the file gives |
| Frontend.EntryFromIni | qiime_analysis.py:79-98 | each stored configuration entry is what the file says for its option |
| Frontend.FolderEntryFromIni | qiime_analysis.py:79-86 | the seven folder entries and the job count are the file's values made a folder or read as an integer |
| Frontend.TextEntryFromIni | qiime_analysis.py:87-98 | every other configuration entry is the file's text unchanged |
| Frontend.ConfigOf | qiime_analysis.py:79-98 | the configuration read back from a ready dictionary has folders ending with `/` |
| Frontend.SettingsOf | qiime_analysis.py:733-762 | the settings the runners read from a ready dictionary carry a valid configuration |
| Frontend.ArgumentsStored | qiime_analysis.py:683-699 | `PR.update` stores every command-line value |
| Frontend.ArgumentStored | qiime_analysis.py:683-699 | each argument key holds its argument after `PR.update` |
| Frontend.KeptByArguments | qiime_analysis.py:683-699 | `PR.update` leaves the other keys alone |
| Frontend.ConfigurationStored | qiime_analysis.py:75-98 | `get_configuration` stores its entries and overwrites no command-line value |
| Frontend.ArgumentIsNotConfigured | qiime_analysis.py:75-98 | no key is filled both from the command line and from the file |
| Frontend.KeptByConfiguration | qiime_analysis.py:75-98 | `get_configuration` leaves the keys it does not feed alone |
| Frontend.LateKeyKeeps | qiime_analysis.py:703-716 | the later assignments overwrite neither arguments nor configuration |
| Frontend.ReadyFromEntries | qiime_analysis.py:683-718 | a dictionary holding the arguments, the configuration, the cores and both file names has every key the runners read, and they read exactly those values |
| Frontend.ConfiguredFolders | qiime_analysis.py:703 | after the arguments and the configuration, the output folder and the configured `others` name are there to form `others` |
| Frontend.ConfigurePrepares | qiime_analysis.py:683-704 | lines 683-704 store every argument and every configured value, `others` and the command-line core count, keep the run identifier, and store `-p` as given |
| Frontend.ParameterFileNamed | qiime_analysis.py:712 | naming the parameter file keeps the dictionary prepared and stores the name |
| Frontend.MappingFileNamed | qiime_analysis.py:714-718 | once both files are named, the dictionary is ready and the runners read exactly the arguments, the configuration and the two file names |
| Frontend.RunParameters.constructor | qiime_analysis.py:40-47 | the dictionary starts holding only the run identifier |
| Frontend.RunParameters.Update | qiime_analysis.py:683-699 | the dictionary gains the command-line entries and keeps every other key |
| Frontend.RunParameters.LoadConfiguration | qiime_analysis.py:75-98 | it succeeds exactly when the file is loadable; on success the dictionary gains the configured entries; on failure it reports `Load`'s error and changes nothing |
| Frontend.RunParameters.Configure | qiime_analysis.py:683-704 | it succeeds exactly when the file is loadable. A failure reports the load error with only the arguments stored. Success leaves every argument and configured value, `others` and the command-line core count stored, keeps the identifier and stores `-p` as given |
| Frontend.RunParameters.SetOthers | qiime_analysis.py:703 | `others` becomes the output folder glued to the configured `others` name; nothing else changes |
| Frontend.RunParameters.SetCores | qiime_analysis.py:704 | the command-line core count replaces the configured job count; nothing else changes |
| Frontend.RunParameters.NameParameterFile | qiime_analysis.py:712 | the parameter file becomes `others + "para" + id + ".txt"`; nothing else changes |
| Frontend.RunParameters.NameMappingFile | qiime_analysis.py:714-718 | as written: without `-a` the flag is bound to true and the mapping file is `others + "map.tsv"`; with `-a` the file is the one given and the flag stays unbound |
| Frontend.RunParameters.ChooseMappingFile | qiime_analysis.py:714-718 | as intended: the flag is true exactly when `-a` is not given, and the mapping file is `MappingFileFor` |
| Frontend.RunParameters.Plan | qiime_analysis.py:733-762 | the dispatch over the dictionary's entries runs exactly the run the chosen runner specifies |
| Frontend.ParameterFileFor | qiime_analysis.py:712 | the parameter file lies in `others`, ends with `.txt` and is 8 characters longer than `others` and the identifier together |
| Frontend.MappingFileFor | qiime_analysis.py:714-718 | the mapping file is the one `-a` names, or a 7-character name inside `others` |
| Frontend.MakeFolder | qiime_analysis.py:709 | `os.mkdir` fails exactly on an empty path or an existing folder; otherwise the folder exists afterwards and no folder is lost |
| Frontend.Script | qiime_analysis.py:700-765 | executing the block as written on the dictionary ends exactly as `ScriptRun` says |
| Frontend.RepairedScript | qiime_analysis.py:700-765 | executing the block as intended ends exactly as `RepairedRun` says |
| Frontend.FreshFolders | qiime_analysis.py:706-723 | on fresh folders the output folder does not exist, and both `os.mkdir` calls succeed |
| Frontend.WrittenLaunch | qiime_analysis.py:706-762 | as written, with `-p` on fresh folders, the chosen runner is called, with the flag unbound exactly when `-a` is given |
| Frontend.OthersCreatedTwice | qiime_analysis.py:146 | as written, every run without `-p` whose output folder can be made ends with `os.mkdir(others)` failing |
| Frontend.SuppliedMapStopsAfterPicking | qiime_analysis.py:714-718 | as written, with `-a`, the runners that read the flag fail with it unbound, and no diversity analysis runs |
| Frontend.RepairedRunCompletes | qiime_analysis.py:700-762 | as intended, fresh folders, a non-empty `-i` and a known joining method make the run finish without error. The chosen runner runs exactly its stages, the mapping stage exactly when `-a` is not given, and the parameter file is written exactly when `-p` is not given |
| Frontend.Defaults | qiime_analysis.py:578-674 | with only `-i` and `-o` given there is no `-b`, `-s`, `-a` or `-p`, the joining method is `fastq-join` and the database SILVA, so the full analysis is chosen |
| Frontend.DefaultRunFails | qiime_analysis.py:711-723 | as written, a run with only `-i` and `-o` given ends with `os.mkdir(others)` failing and reaches no runner |
| Frontend.DefaultRunCompletes | qiime_analysis.py:700-762 | as intended, a run with only `-i` and `-o` given on fresh folders runs every stage of the full analysis, mapping included, without error, and writes the parameter file |

## Left out

- The external tools (`bbduk.sh`, `fastq-join`, `bbmerge.sh`, `split_libraries_fastq.py`, `identify_chimeric_seqs.py`, `filter_fasta.py`, `pick_open_reference_otus.py`, `filter_otus_from_otu_table.py`, `core_diversity_analyses.py`) are left out. Each call is a job or command record holding its arguments. The effects, output, return codes and warnings of the calls are not modelled.
- The shell calls made through `call` are left out: `rm …un1`, `rm …un2` and `mv …join` in `mergefolderfastq` (qiime_analysis.py:281-285), `mv` and `rm -r` in quality control, and `rm -r` in chimera removal. Only the paths they name are in the job records.
- The thread pools (`Pool(number_of_cores)`, `Pool(5)`) are left out; a stage's jobs are a sequence in listing order. Worker scheduling, a pool size below one and failures inside workers are not modelled.
- The filesystem is a set of folder names ending with `/`. `os.listdir` results are given listings, and the stages' own `os.mkdir(out_folder)` calls are left out. There are no parent-folder checks, no path normalisation and no files other than the parameter file.
- The parameter file's write (`open`/`write`) is left out; the file is returned as a (path, text) pair.
- Writing the mapping table (`DataFrame.to_csv`) is left out; the model gives the rows in column order.
- Frontend.RunParameters.LoadConfiguration: on a failed lookup it leaves the dictionary unchanged, whereas `get_configuration` (qiime_analysis.py:78-98) has already stored the entries read before the lookup that raises. The exception is not caught, so the script ends and nothing reads the partly filled dictionary.
- Logging (lines 724-730, `loginfo`, `logwarning`) and the `print` calls are left out. The logging in `execute` (qiime_analysis.py:57-64) can end a run, and the model does not capture this. Under Python 3, `communicate` returns `bytes`, and `bytes` has no `encode`. So `output.encode('utf-8')` at line 61 raises `AttributeError` whenever a tool writes to its standard output, and line 63 does the same for its standard error. Under Python 2, non-ASCII tool output raises `UnicodeDecodeError` there. Raised inside a pool worker, the error comes back through `Pool.map` and ends the run at that stage. The model assumes every external call returns.
- `argparse` is left out: the parsed arguments are a record, and defaults are those of `WithDefaults`. Python type errors on option values are not modelled.
- `configparser` reading is left out: the INI file is a map from option to text. Interpolation, case folding and a missing or unreadable file are not modelled.
- Text.ParseInt: accepts an optional sign and ASCII digits. It does not model the surrounding whitespace, underscores or non-ASCII digits that Python's `int` also accepts.
- `datetime.now()` is a timestamp string given as input.
- `sys.exit()` on an existing output folder is the `OutputExists` outcome; the process exit status is not modelled.
- `pickotus` with the fungal flag set is modelled (`Reference.PickOtus`), but no runner passes that flag. The fungal branch is therefore unreachable from the workflow (qiime_analysis.py:507, 556), as `Workflow.PickFor` states.
- `raise("error method")` raises a `TypeError` in Python 3 (a string is not an exception). It is modelled as the `UnknownJoiningMethod` error result that ends the run.
- The stage folders are `out_folder + name` without normalising `out_folder` first (qiime_analysis.py:491-496, 703). An `-o` without a final `/` gives glued paths, and the model keeps this as written (`Workflow.FoldersOf`).
- The `pass` branch at lines 720-721 does nothing and is not modelled.

## Findings

| source | as written | input that shows it | evidently intended | confidence | as-written member | corrected member |
|---|---|---|---|---|---|---|
| qiime_analysis.py:146 | `write_parameter_file` runs `os.mkdir(PR['others'])`, and the `__main__` block runs it again at line 723 | any run without `-p` whose output folder does not exist yet: the second `os.mkdir` raises because the first made the folder | create `others` once, before the parameter file is written into it | not executed | Frontend.OthersCreatedTwice | Frontend.RepairedRunCompletes |
| qiime_analysis.py:714-718 | `create_mapping_file` is assigned only when `-a` is absent; `full_analysis` and `start_otu_pickng` read it at lines 509 and 557 | `-a map.tsv -p para.txt` with the full analysis or `-b otu_picking`: the run stops after OTU picking with an unbound name, and no diversity analysis runs | bind the flag to false when `-a` is given | not executed | Frontend.SuppliedMapStopsAfterPicking | Frontend.RunParameters.ChooseMappingFile |
