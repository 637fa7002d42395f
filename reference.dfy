/**
 * The choice of reference database and what depends on it: the QIIME
 * parameter file `write_parameter_file` writes (qiime_analysis.py:102-150),
 * the OTU-picking commands of `pickotus` (377-415) and the core-diversity
 * command of `corediv` (450-477).
 */
module Reference {
  import opened Base
  import opened Text
  import opened Configuration

  datatype Database = Silva | Unite | GreenGenes

  /** `write_parameter_file`'s three-way choice: `rdb == "silva"` first, then
      the fungal flag, then GreenGenes. */
  function Choose(rdb: string, fungus: bool): (db: Database)
    ensures db == Silva <==> rdb == "silva"
    ensures db == Unite <==> rdb != "silva" && fungus
    ensures db == GreenGenes <==> rdb != "silva" && !fungus
  {
    if rdb == "silva" then Silva else if fungus then Unite else GreenGenes
  }

  // ---------------------------------------------------------------------------
  // The parameter file
  // ---------------------------------------------------------------------------

  /** The parameter-file keys the templates use. */
  datatype ParamKey =
    | IdToTaxonomy | ReferenceSeqs | PickOtusReference | RevStrandMatch | PynastTemplate
    | JobsToStart | Similarity | AssignmentMethod | BlastEValue
  {
    /** The key as written in the file: `<script or section>:<parameter>`. */
    function Name(): string {
      match this
      case IdToTaxonomy => "assign_taxonomy:id_to_taxonomy_fp"
      case ReferenceSeqs => "assign_taxonomy:reference_seqs_fp"
      case PickOtusReference => "pick_otus.py:pick_otus_reference_seqs_fp"
      case RevStrandMatch => "pick_otus:enable_rev_strand_match"
      case PynastTemplate => "filter_alignment.py:pynast_template_alignment_fp"
      case JobsToStart => "parallel:jobs_to_start"
      case Similarity => "assign_taxonomy:similarity"
      case AssignmentMethod => "assign_taxonomy:assignment_method"
      case BlastEValue => "parallel_assign_taxonomy_blast:e_value"
    }
  }

  /** One line of a QIIME parameter file: `key<separator>value`, or a comment. */
  datatype ParamLine = Entry(key: ParamKey, separator: string, value: string) | Comment(text: string)

  /** The template for SILVA and GreenGenes, filled with one database's files. */
  function PynastLines(taxonomy: string, referenceSeqs: string, coreAlignment: string,
                       cores: int, similarity: string): seq<ParamLine>
  {
    [Entry(IdToTaxonomy, "\t", taxonomy),
     Entry(ReferenceSeqs, "\t", referenceSeqs),
     Entry(PickOtusReference, "\t", referenceSeqs),
     Entry(RevStrandMatch, " ", "True"),
     Entry(PynastTemplate, "\t", coreAlignment),
     Entry(JobsToStart, "\t", FormatInt(cores)),
     Entry(Similarity, "\t", similarity)]
  }

  /** The UNITE template: BLAST assignment, no alignment, two comments. */
  function BlastLines(taxonomy: string, referenceSeqs: string, cores: int, eValue: string): seq<ParamLine>
  {
    [Entry(IdToTaxonomy, "\t", taxonomy),
     Entry(ReferenceSeqs, "\t", referenceSeqs),
     Entry(PickOtusReference, "\t", referenceSeqs),
     Entry(JobsToStart, "\t", FormatInt(cores)),
     Entry(AssignmentMethod, " ", "blast"),
     Comment("# should we use e_value or blast_e_value"),
     Entry(BlastEValue, "\t", eValue),
     Comment("# comment")]
  }

  /** The lines of the parameter file for a database; `cores` is the core
      count in force when the file is written. */
  function ParameterLines(db: Database, c: Config, cores: int): seq<ParamLine> {
    match db
    case Silva => PynastLines(c.silvaTaxonomy, c.silvaReferenceSeqs, c.silvaCoreAlignment, cores, c.similarity)
    case Unite => BlastLines(c.uniteTaxonomy, c.uniteReferenceSeqs, cores, c.blastEValue)
    case GreenGenes => PynastLines(c.ggTaxonomy, c.ggReferenceSeqs, c.ggCoreAlignment, cores, c.similarity)
  }

  /** Some entry of the file has `key`. */
  predicate HasKey(lines: seq<ParamLine>, key: ParamKey) {
    exists i :: 0 <= i < |lines| && lines[i].Entry? && lines[i].key == key
  }

  /** The value of the first entry with `key`, or `None` when no entry has it. */
  function Lookup(lines: seq<ParamLine>, key: ParamKey): (r: Option<string>)
    ensures r.Some? <==> HasKey(lines, key)
    decreases |lines|
  {
    if lines == [] then None
    else if lines[0].Entry? && lines[0].key == key then Some(lines[0].value)
    else
      var r := Lookup(lines[1..], key);
      assert HasKey(lines[1..], key) ==> HasKey(lines, key) by {
        if HasKey(lines[1..], key) {
          var i :| 0 <= i < |lines[1..]| && lines[1..][i].Entry? && lines[1..][i].key == key;
          assert lines[i + 1] == lines[1..][i];
        }
      }
      assert HasKey(lines, key) ==> HasKey(lines[1..], key) by {
        if HasKey(lines, key) {
          var i :| 0 <= i < |lines| && lines[i].Entry? && lines[i].key == key;
          assert i > 0 && lines[1..][i - 1] == lines[i];
        }
      }
      r
  }

  /** The lookup finds the first entry with the key. */
  lemma {:induction false} LookupFirst(lines: seq<ParamLine>, i: nat, key: ParamKey)
    requires i < |lines| && lines[i].Entry? && lines[i].key == key
    requires forall j :: 0 <= j < i ==> !(lines[j].Entry? && lines[j].key == key)
    ensures Lookup(lines, key) == Some(lines[i].value)
    decreases i
  {
    if i > 0 {
      LookupFirst(lines[1..], i - 1, key);
    }
  }

  /** The indentation the triple-quoted template carries into the file. */
  function Indent(db: Database): string {
    if db == Unite then "        " else "    "
  }

  function LineText(l: ParamLine): string {
    match l
    case Entry(key, separator, value) => key.Name() + separator + value
    case Comment(text) => text
  }

  function RenderLines(lines: seq<ParamLine>, indent: string): string
    decreases |lines|
  {
    if lines == [] then [] else indent + LineText(lines[0]) + "\n" + RenderLines(lines[1..], indent)
  }

  /** The text written to the parameter file: a newline, each line indented
      and ended, and the indentation of the closing quotes. */
  function ParameterText(db: Database, c: Config, cores: int): string {
    FileText(ParameterLines(db, c, cores), Indent(db))
  }

  function FileText(lines: seq<ParamLine>, indent: string): string {
    "\n" + RenderLines(lines, indent) + indent
  }

  // ---------------------------------------------------------------------------
  // OTU picking and core diversity
  // ---------------------------------------------------------------------------

  const PickedTable := "otu_table_mc2_w_tax_no_pynast_failures.biom"
  const ClosedTable := "otu_table_mc2_w_tax_no_pynast_failures_close_reference.biom"
  const FungalTable := "otu_table_mc2_w_tax.biom"

  datatype OtuCommand =
      /** `pick_open_reference_otus.py -i -o -p [-r] -a -O [--supress_align_and_tree]` */
    | PickOpenReference(input: string, output: string, parameterFile: string,
                        reference: Option<string>, cores: int, suppressAlignAndTree: bool)
      /** `filter_otus_from_otu_table.py -i -o --negate_ids_to_exclude -e` */
    | FilterOtus(table: string, filtered: string, exclude: string)

  /** `pickotus(in_folder, out_folder, rdb, fungus)`: open-reference picking on
      every `.fasta` file of the input folder, then, unless fungal, keeping only
      the OTUs of the reference. */
  function PickOtus(inFolder: string, outFolder: string, rdb: string, fungus: bool,
                    parameterFile: string, c: Config, cores: int): seq<OtuCommand>
    requires |inFolder| > 0 && |outFolder| > 0
  {
    var input, output := AsFolder(inFolder) + "*.fasta", AsFolder(outFolder);
    match Choose(rdb, fungus)
    case Silva =>
      [PickOpenReference(input, output, parameterFile, Some(c.silvaReferenceSeqs), cores, false),
       FilterOtus(output + PickedTable, output + ClosedTable, c.silvaReferenceSeqs)]
    case Unite =>
      [PickOpenReference(input, output, parameterFile, None, cores, true)]
    case GreenGenes =>
      [PickOpenReference(input, output, parameterFile, Some(c.ggReferenceSeqs), cores, false),
       FilterOtus(output + PickedTable, output + ClosedTable, c.ggReferenceSeqs)]
  }

  /** `core_diversity_analyses.py -i biom -o -m -e [-t tree | --nonphylogenetic_diversity]` */
  datatype DiversityCommand = CoreDiversity(biom: string, output: string, mappingFile: string,
                                            tree: Option<string>, depth: int)

  /** `corediv(in_folder, out_folder, mapping_file, depth)`; the variant
      depends on the fungal flag alone, not on `rdb`. */
  function CoreDiv(inFolder: string, outFolder: string, mappingFile: string, depth: int,
                   fungus: bool): DiversityCommand
    requires |inFolder| > 0 && |outFolder| > 0
  {
    var input, output := AsFolder(inFolder), AsFolder(outFolder);
    if fungus then CoreDiversity(input + FungalTable, output, mappingFile, None, depth)
    else CoreDiversity(input + PickedTable, output, mappingFile, Some(input + "rep_set.tre"), depth)
  }

  // ---------------------------------------------------------------------------
  // Properties
  // ---------------------------------------------------------------------------

  /** `rdb == "silva"` wins over the fungal flag: the SILVA files fill the
      template, whatever `fungus` says. */
  lemma SilvaWins(c: Config, cores: int, fungus: bool)
    ensures Choose("silva", fungus) == Silva
    ensures Lookup(ParameterLines(Choose("silva", fungus), c, cores), ReferenceSeqs) == Some(c.silvaReferenceSeqs)
  {
    LookupFirst(ParameterLines(Silva, c, cores), 1, ReferenceSeqs);
  }

  /** The fungal template assigns taxonomy with BLAST and an e-value and has
      no alignment and no similarity; the other two are the reverse. All three
      name the taxonomy, the reference sequences and the job count. */
  lemma TemplateKeys(db: Database, c: Config, cores: int)
    ensures var lines := ParameterLines(db, c, cores);
      && (db == Unite <==> HasKey(lines, AssignmentMethod))
      && (db == Unite <==> HasKey(lines, BlastEValue))
      && (db == Unite <==> !HasKey(lines, PynastTemplate))
      && (db == Unite <==> !HasKey(lines, Similarity))
      && HasKey(lines, IdToTaxonomy) && HasKey(lines, ReferenceSeqs) && HasKey(lines, JobsToStart)
  {
    var lines := ParameterLines(db, c, cores);
    assert lines[0].key == IdToTaxonomy && lines[1].key == ReferenceSeqs;
    if db == Unite {
      assert lines[3].key == JobsToStart && lines[4].key == AssignmentMethod && lines[6].key == BlastEValue;
    } else {
      assert lines[4].key == PynastTemplate && lines[5].key == JobsToStart && lines[6].key == Similarity;
    }
  }

  /** The jobs entry is the core count written with `%d`, which `int` reads
      back as the same number, in every template. */
  lemma JobsRoundTrip(db: Database, c: Config, cores: int)
    ensures var v := Lookup(ParameterLines(db, c, cores), JobsToStart);
      v == Some(FormatInt(cores)) && ParseInt(v.value) == Some(cores)
  {
    var lines := ParameterLines(db, c, cores);
    LookupFirst(lines, if db == Unite then 3 else 5, JobsToStart);
    ParseFormat(cores);
  }

  /** The lines of the text without a newline of their own. */
  function Shown(lines: seq<ParamLine>, indent: string): seq<string> {
    seq(|lines|, i requires 0 <= i < |lines| => indent + LineText(lines[i]))
  }

  lemma {:induction false} RenderSplits(lines: seq<ParamLine>, indent: string)
    requires '\n' !in indent
    requires forall l :: l in lines ==> '\n' !in LineText(l)
    ensures Split(RenderLines(lines, indent) + indent, "\n") == Shown(lines, indent) + [indent]
    decreases |lines|
  {
    SplitAbsent(indent, '\n');
    if lines == [] {
      assert RenderLines(lines, indent) + indent == indent;
    } else {
      var first := indent + LineText(lines[0]);
      assert '\n' !in LineText(lines[0]);
      assert '\n' !in first by {
        forall k | 0 <= k < |first| ensures first[k] != '\n' {
          if k < |indent| { assert first[k] == indent[k]; }
          else { assert first[k] == LineText(lines[0])[k - |indent|]; }
        }
      }
      RenderSplits(lines[1..], indent);
      assert RenderLines(lines, indent) + indent == first + "\n" + (RenderLines(lines[1..], indent) + indent);
      SplitAfterField(first, RenderLines(lines[1..], indent) + indent, '\n');
      assert Shown(lines, indent) == [first] + Shown(lines[1..], indent);
    }
  }

  /** Read back line by line, the parameter file is an empty line, one line
      per template line (indented), and the closing indentation; this holds
      whenever no configured value spans several lines. */
  lemma ParameterFileLines(db: Database, c: Config, cores: int)
    requires forall l :: l in ParameterLines(db, c, cores) ==> '\n' !in LineText(l)
    ensures Split(ParameterText(db, c, cores), "\n") ==
      [""] + Shown(ParameterLines(db, c, cores), Indent(db)) + [Indent(db)]
  {
    FileTextLines(ParameterLines(db, c, cores), Indent(db));
  }

  lemma FileTextLines(lines: seq<ParamLine>, indent: string)
    requires '\n' !in indent
    requires forall l :: l in lines ==> '\n' !in LineText(l)
    ensures Split(FileText(lines, indent), "\n") == [""] + Shown(lines, indent) + [indent]
  {
    RenderSplits(lines, indent);
    var rest := RenderLines(lines, indent) + indent;
    assert FileText(lines, indent) == [] + ['\n'] + rest;
    SplitAfterField([], rest, '\n');
  }

  /** Picking starts from every `.fasta` file of the input folder. Outside
      the fungal case it uses the chosen database's reference and filters the
      picked table against that same reference; the fungal case picks without
      a reference, skips alignment and tree, and filters nothing. */
  lemma PickOtusVariants(inFolder: string, outFolder: string, rdb: string, fungus: bool,
                         parameterFile: string, c: Config, cores: int)
    requires |inFolder| > 0 && |outFolder| > 0
    ensures var cmds, db := PickOtus(inFolder, outFolder, rdb, fungus, parameterFile, c, cores), Choose(rdb, fungus);
      && |cmds| > 0 && cmds[0].PickOpenReference?
      && cmds[0].input == AsFolder(inFolder) + "*.fasta"
      && cmds[0].output == AsFolder(outFolder)
      && cmds[0].parameterFile == parameterFile && cmds[0].cores == cores
      && (db == Unite <==> |cmds| == 1)
      && (db == Unite <==> cmds[0].reference.None?)
      && (db == Unite <==> cmds[0].suppressAlignAndTree)
      && (db == Silva ==> cmds[0].reference == Some(c.silvaReferenceSeqs))
      && (db == GreenGenes ==> cmds[0].reference == Some(c.ggReferenceSeqs))
      && (|cmds| == 2 ==>
            && cmds[1].FilterOtus?
            && cmds[1].table == cmds[0].output + PickedTable
            && Some(cmds[1].exclude) == cmds[0].reference)
  {
  }

  /** The non-fungal diversity analysis reads the table picking produced, not
      the close-reference table the filter wrote, and takes the tree beside
      it; the fungal one reads the table with PyNAST failures kept and uses no
      tree. */
  lemma CoreDivReadsPickedTable(chi: string, otus: string, div: string, mappingFile: string, depth: int,
                                rdb: string, fungus: bool, parameterFile: string, c: Config, cores: int)
    requires |chi| > 0 && |otus| > 0 && |div| > 0
    ensures var cmd, pick := CoreDiv(otus, div, mappingFile, depth, fungus),
                             PickOtus(chi, otus, rdb, false, parameterFile, c, cores);
      && (cmd.tree.None? <==> fungus)
      && cmd.output == AsFolder(div) && cmd.mappingFile == mappingFile && cmd.depth == depth
      && (!fungus ==> cmd.biom == pick[1].table && cmd.biom != pick[1].filtered
                      && cmd.tree == Some(AsFolder(otus) + "rep_set.tre"))
      && (fungus ==> cmd.biom == AsFolder(otus) + FungalTable)
  {
  }
}
