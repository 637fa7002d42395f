/**
 * `create_map` (qiime_analysis.py:418-447): the basic QIIME mapping table,
 * one row per file of a folder, in the order the folder lists them (the
 * listing is not sorted here). Writing the table as tab-separated text is
 * left to pandas and not part of this model.
 */
module MapFile {
  import opened Text

  /** The six columns, in the order the data frame gains them. */
  const Columns: seq<string> :=
    ["#SampleID", "BarcodeSequence", "LinkerPrimerSequence", "Read", "File", "Description"]

  /** The sample id of a file: the name without `.fasta`, cut at the first
      `_`. It is the longest `_`-free prefix of the stripped name. */
  function SampleIdOf(name: string): (id: string)
    ensures var stripped := ReplaceAll(name, ".fasta", "");
      && '_' !in id
      && |id| <= |stripped| && id == stripped[..|id|]
      && (|id| < |stripped| ==> stripped[|id|] == '_')
  {
    var stripped := ReplaceAll(name, ".fasta", "");
    SplitFirstField(stripped, '_');
    Split(stripped, "_")[0]
  }

  /** A data-frame column filled with one value, as `df[col] = value` does. */
  function Broadcast(n: nat, value: string): (column: seq<string>)
    ensures |column| == n && forall i :: 0 <= i < n ==> column[i] == value
  {
    seq(n, i => value)
  }

  /** The table `create_map` writes: the header row, then one row per listed
      file; `File` is the name itself, `Read` and `Description` are fixed and
      the barcode and linker are empty. */
  function CreateMap(inFolder: string, listing: seq<string>): (table: seq<seq<string>>)
    requires |inFolder| > 0
    ensures |table| == |listing| + 1 && table[0] == Columns
    ensures forall i :: 0 <= i < |listing| ==>
      var row := table[i + 1];
      && |row| == |Columns|
      && row[0] == SampleIdOf(listing[i])
      && row[1] == "" && row[2] == "" && row[3] == "R1"
      && row[4] == listing[i]
      && row[5] == "single_file"
  {
    var n := |listing|;
    var stripped := seq(n, i requires 0 <= i < n => ReplaceAll(listing[i], ".fasta", ""));
    var ids := seq(n, i requires 0 <= i < n => Split(stripped[i], "_")[0]);
    var columns := [ids, Broadcast(n, ""), Broadcast(n, ""), Broadcast(n, "R1"), listing,
                    Broadcast(n, "single_file")];
    [Columns] + seq(n, i requires 0 <= i < n => seq(|columns|, c requires 0 <= c < |columns| => columns[c][i]))
  }

  /** The id is what precedes the first `_` of the stripped name: for a
      stripped name `<id>_<rest>` with a `_`-free `<id>` it is `<id>`, and for a
      `_`-free name `<id>.fasta` it is `<id>` whole. */
  lemma SampleIdIsFirstField(name: string, id: string, rest: string)
    requires '_' !in id
    ensures ReplaceAll(name, ".fasta", "") == id + "_" + rest ==> SampleIdOf(name) == id
    ensures !Contains(id + ".fast", ".fasta") ==> SampleIdOf(id + ".fasta") == id
  {
    var stripped := ReplaceAll(name, ".fasta", "");
    var r := SampleIdOf(name);
    if stripped == id + "_" + rest {
      assert forall k :: 0 <= k < |r| ==> stripped[k] == r[k] && r[k] != '_';
      assert forall k :: 0 <= k < |id| ==> stripped[k] == id[k] && id[k] != '_';
      assert stripped[|id|] == '_';
      assert r == stripped[..|id|];
    }
    if !Contains(id + ".fast", ".fasta") {
      assert ".fasta"[..5] == ".fast";
      ReplaceSingle(id, ".fasta", "", "");
      assert id + ".fasta" + "" == id + ".fasta";
      var q := SampleIdOf(id + ".fasta");
      assert forall k :: 0 <= k < |id| ==> id[k] != '_';
      assert q == id;
    }
  }
}
