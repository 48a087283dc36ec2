/**
 * The run descriptor of bcbio_helper.py: the template record handed to
 * `bcbio_nextgen.py -w template`, the sample manifest built from the forward
 * FASTQ reads, the run-name rule that forces a `.csv` name, and the start
 * command derived from the run name's stem. The filesystem is an input list
 * of entries; the CSV and YAML files are rows and trees rather than bytes.
 */
module BcbioHelper {
  import opened Wrappers
  import opened Python
  import Paths

  // ---------------------------------------------------------------------------
  // Errors
  // ---------------------------------------------------------------------------

  /** What the helper raises. */
  datatype Raised = ValueError(message: string)

  const NO_FASTQ_MESSAGE := "Can't find zipped FASTQ data! (*.fq.gz)"

  // ---------------------------------------------------------------------------
  // The template record
  // ---------------------------------------------------------------------------

  /** The values docopt hands over in command-line mode; an omitted option is None. */
  datatype CliArgs = CliArgs(
    dataPath: string, fastaPath: string, gtfPath: string,
    analysis: Option<string>, genome: Option<string>, adapter: Option<string>,
    strandedness: Option<string>, aligner: Option<string>, cores: Option<string>,
    runName: string, outpath: string)

  /** `adapters` is a single string when given on the command line, a list by default. */
  datatype Adapters = Adapter(name: string) | AdapterList(names: seq<string>)

  datatype Algorithm = Algorithm(
    transcriptomeFasta: string, transcriptomeGtf: string, aligner: string,
    adapters: Adapters, strandedness: string)

  datatype Detail = Detail(analysis: string, genomeBuild: string, algorithm: Algorithm)

  /** The nested dictionary dumped to template.yaml: `details` and `upload.dir`. */
  datatype Template = Template(details: seq<Detail>, uploadDir: string)

  const DEFAULT_ADAPTERS := AdapterList(["nextera", "polya"])

  /**
   * `get_args`: every falsy option becomes its default, a given one is kept
   * as it is; the paths are copied and the upload directory is the out path
   * with "final/" pasted on.
   */
  function GetArgs(args: CliArgs): (t: Template)
    ensures |t.details| == 1
    ensures var d := t.details[0];
      (Truthy(args.analysis) ==> d.analysis == args.analysis.value) &&
      (!Truthy(args.analysis) ==> d.analysis == "RNA-seq") &&
      (Truthy(args.genome) ==> d.genomeBuild == args.genome.value) &&
      (!Truthy(args.genome) ==> d.genomeBuild == "hg38")
    ensures var a := t.details[0].algorithm;
      (Truthy(args.aligner) ==> a.aligner == args.aligner.value) &&
      (!Truthy(args.aligner) ==> a.aligner == "hisat2") &&
      (Truthy(args.adapter) ==> a.adapters == Adapter(args.adapter.value)) &&
      (!Truthy(args.adapter) ==> a.adapters == DEFAULT_ADAPTERS) &&
      (Truthy(args.strandedness) ==> a.strandedness == args.strandedness.value) &&
      (!Truthy(args.strandedness) ==> a.strandedness == "unstranded")
    ensures var a := t.details[0].algorithm;
      a.transcriptomeFasta == args.fastaPath && a.transcriptomeGtf == args.gtfPath
    ensures StartsWith(t.uploadDir, args.outpath) && EndsWith(t.uploadDir, "final/")
    ensures |t.uploadDir| == |args.outpath| + 6
  {
    var adapters := if Truthy(args.adapter) then Adapter(args.adapter.value) else DEFAULT_ADAPTERS;
    Template(
      [Detail(OrDefault(args.analysis, "RNA-seq"), OrDefault(args.genome, "hg38"),
        Algorithm(args.fastaPath, args.gtfPath, OrDefault(args.aligner, "hisat2"),
          adapters, OrDefault(args.strandedness, "unstranded")))],
      args.outpath + "final/")
  }

  // ---------------------------------------------------------------------------
  // The template as a YAML document, keys in insertion order
  // ---------------------------------------------------------------------------

  datatype Yaml = Scalar(text: string) | Sequence(items: seq<Yaml>) | Mapping(entries: seq<Entry>)
  datatype Entry = Entry(key: string, value: Yaml)

  function Keys(entries: seq<Entry>): (ks: seq<string>)
    ensures |ks| == |entries|
    ensures forall i :: 0 <= i < |entries| ==> ks[i] == entries[i].key
  {
    seq(|entries|, i requires 0 <= i < |entries| => entries[i].key)
  }

  /** The value under the first entry with `key`. */
  function Lookup(entries: seq<Entry>, key: string): (v: Option<Yaml>)
    decreases |entries|
  {
    if entries == [] then None
    else if entries[0].key == key then Some(entries[0].value)
    else Lookup(entries[1..], key)
  }

  /** A key is found exactly when some entry carries it. */
  lemma {:induction false} LookupFindsKey(entries: seq<Entry>, key: string)
    ensures Lookup(entries, key).Some? <==> key in Keys(entries)
    decreases |entries|
  {
    if entries != [] {
      LookupFindsKey(entries[1..], key);
      assert Keys(entries) == [entries[0].key] + Keys(entries[1..]);
    }
  }

  function ScalarsDoc(names: seq<string>): seq<Yaml>
    decreases |names|
  {
    if names == [] then [] else [Scalar(names[0])] + ScalarsDoc(names[1..])
  }

  function AdaptersDoc(a: Adapters): Yaml
  {
    match a
    case Adapter(n) => Scalar(n)
    case AdapterList(ns) => Sequence(ScalarsDoc(ns))
  }

  function AlgorithmDoc(a: Algorithm): Yaml
  {
    Mapping([
      Entry("transcriptome_fasta", Scalar(a.transcriptomeFasta)),
      Entry("transcriptome_gtf", Scalar(a.transcriptomeGtf)),
      Entry("aligner", Scalar(a.aligner)),
      Entry("adapters", AdaptersDoc(a.adapters)),
      Entry("strandedness", Scalar(a.strandedness))])
  }

  function DetailDoc(d: Detail): Yaml
  {
    Mapping([
      Entry("analysis", Scalar(d.analysis)),
      Entry("genome_build", Scalar(d.genomeBuild)),
      Entry("algorithm", AlgorithmDoc(d.algorithm))])
  }

  function DetailsDoc(ds: seq<Detail>): seq<Yaml>
    decreases |ds|
  {
    if ds == [] then [] else [DetailDoc(ds[0])] + DetailsDoc(ds[1..])
  }

  /** `yaml.dump(args, sort_keys=False)` as a tree: "details" comes before "upload". */
  function TemplateDoc(t: Template): (y: Yaml)
    ensures y.Mapping? && Keys(y.entries) == ["details", "upload"]
  {
    Mapping([
      Entry("details", Sequence(DetailsDoc(t.details))),
      Entry("upload", Mapping([Entry("dir", Scalar(t.uploadDir))]))])
  }

  // A reader for the document, to show that the dump loses nothing.

  function ScalarText(y: Option<Yaml>): Option<string>
  {
    if y.Some? && y.value.Scalar? then Some(y.value.text) else None
  }

  function ParseScalars(items: seq<Yaml>): Option<seq<string>>
    decreases |items|
  {
    if items == [] then Some([])
    else if !items[0].Scalar? then None
    else
      var rest := ParseScalars(items[1..]);
      if rest.None? then None else Some([items[0].text] + rest.value)
  }

  function ParseAdapters(y: Option<Yaml>): Option<Adapters>
  {
    if y.None? then None
    else match y.value
      case Scalar(n) => Some(Adapter(n))
      case Sequence(items) =>
        var ns := ParseScalars(items);
        if ns.None? then None else Some(AdapterList(ns.value))
      case Mapping(_) => None
  }

  function ParseAlgorithm(y: Yaml): Option<Algorithm>
  {
    if !y.Mapping? then None
    else
      var fasta := ScalarText(Lookup(y.entries, "transcriptome_fasta"));
      var gtf := ScalarText(Lookup(y.entries, "transcriptome_gtf"));
      var aligner := ScalarText(Lookup(y.entries, "aligner"));
      var adapters := ParseAdapters(Lookup(y.entries, "adapters"));
      var strandedness := ScalarText(Lookup(y.entries, "strandedness"));
      if fasta.None? || gtf.None? || aligner.None? || adapters.None? || strandedness.None? then None
      else Some(Algorithm(fasta.value, gtf.value, aligner.value, adapters.value, strandedness.value))
  }

  function ParseDetail(y: Yaml): Option<Detail>
  {
    if !y.Mapping? then None
    else
      var analysis := ScalarText(Lookup(y.entries, "analysis"));
      var genome := ScalarText(Lookup(y.entries, "genome_build"));
      var algorithm := Lookup(y.entries, "algorithm");
      if analysis.None? || genome.None? || algorithm.None? then None
      else
        var a := ParseAlgorithm(algorithm.value);
        if a.None? then None else Some(Detail(analysis.value, genome.value, a.value))
  }

  function ParseDetails(items: seq<Yaml>): Option<seq<Detail>>
    decreases |items|
  {
    if items == [] then Some([])
    else
      var d := ParseDetail(items[0]);
      var rest := ParseDetails(items[1..]);
      if d.None? || rest.None? then None else Some([d.value] + rest.value)
  }

  function ParseTemplate(y: Yaml): Option<Template>
  {
    if !y.Mapping? then None
    else
      var details := Lookup(y.entries, "details");
      var upload := Lookup(y.entries, "upload");
      if details.None? || !details.value.Sequence? || upload.None? || !upload.value.Mapping? then None
      else
        var ds := ParseDetails(details.value.items);
        var dir := ScalarText(Lookup(upload.value.entries, "dir"));
        if ds.None? || dir.None? then None else Some(Template(ds.value, dir.value))
  }

  /** Lookup finds the first entry carrying the key. */
  lemma {:induction false} LookupAt(entries: seq<Entry>, i: nat, key: string)
    requires i < |entries| && entries[i].key == key
    requires forall j :: 0 <= j < i ==> entries[j].key != key
    ensures Lookup(entries, key) == Some(entries[i].value)
    decreases i
  {
    if i > 0 {
      LookupAt(entries[1..], i - 1, key);
    }
  }

  lemma {:induction false} ScalarsRoundTrip(names: seq<string>)
    ensures ParseScalars(ScalarsDoc(names)) == Some(names)
    decreases |names|
  {
    if names != [] {
      ScalarsRoundTrip(names[1..]);
      var items := ScalarsDoc(names);
      assert items[0] == Scalar(names[0]);
      assert items[1..] == ScalarsDoc(names[1..]);
      assert [names[0]] + names[1..] == names;
    }
  }

  lemma AdaptersRoundTrip(a: Adapters)
    ensures ParseAdapters(Some(AdaptersDoc(a))) == Some(a)
  {
    if a.AdapterList? {
      ScalarsRoundTrip(a.names);
    }
  }

  lemma AlgorithmRoundTrip(a: Algorithm)
    ensures ParseAlgorithm(AlgorithmDoc(a)) == Some(a)
  {
    var es := AlgorithmDoc(a).entries;
    LookupAt(es, 0, "transcriptome_fasta");
    LookupAt(es, 1, "transcriptome_gtf");
    LookupAt(es, 2, "aligner");
    LookupAt(es, 3, "adapters");
    LookupAt(es, 4, "strandedness");
    AdaptersRoundTrip(a.adapters);
  }

  lemma DetailRoundTrip(d: Detail)
    ensures ParseDetail(DetailDoc(d)) == Some(d)
  {
    var es := DetailDoc(d).entries;
    LookupAt(es, 0, "analysis");
    LookupAt(es, 1, "genome_build");
    LookupAt(es, 2, "algorithm");
    AlgorithmRoundTrip(d.algorithm);
  }

  lemma {:induction false} DetailsRoundTrip(ds: seq<Detail>)
    ensures ParseDetails(DetailsDoc(ds)) == Some(ds)
    decreases |ds|
  {
    if ds != [] {
      DetailRoundTrip(ds[0]);
      DetailsRoundTrip(ds[1..]);
      var items := DetailsDoc(ds);
      assert items[0] == DetailDoc(ds[0]);
      assert items[1..] == DetailsDoc(ds[1..]);
      assert [ds[0]] + ds[1..] == ds;
    }
  }

  /** Reading back the dumped template gives the template. */
  lemma TemplateRoundTrip(t: Template)
    ensures ParseTemplate(TemplateDoc(t)) == Some(t)
  {
    var es := TemplateDoc(t).entries;
    LookupAt(es, 0, "details");
    LookupAt(es, 1, "upload");
    LookupAt(es[1].value.entries, 0, "dir");
    DetailsRoundTrip(t.details);
  }

  // ---------------------------------------------------------------------------
  // The sample manifest
  // ---------------------------------------------------------------------------

  /** One path the recursive glob under the data directory yields. */
  datatype FileEntry = FileEntry(path: string, isFile: bool)

  const FORWARD_READ_SUFFIX := "1.fq.gz"

  // The recursive glob "*1.fq.gz" plus is_file(): a regular file whose name ends in "1.fq.gz".
  predicate IsForwardRead(e: FileEntry)
  {
    e.isFile && EndsWith(Paths.Name(e.path), FORWARD_READ_SUFFIX)
  }

  /** The list comprehension of `create_csv`, in glob order. */
  function ForwardReads(entries: seq<FileEntry>): (items: seq<FileEntry>)
    ensures forall e :: e in items <==> e in entries && IsForwardRead(e)
  {
    Filter(entries, (e: FileEntry) => IsForwardRead(e))
  }

  /** `item.name.split("_")[0]`: the file name up to its first '_', or all of it. */
  function Description(path: string): (d: string)
    ensures var name := Paths.Name(path);
      d <= name && '_' !in d && (d == name || name[|d|] == '_')
  {
    FirstField(Paths.Name(path), '_')
  }

  datatype Row = Row(samplename: string, description: string)

  const HEADER := Row("samplename", "description")

  /** The CSV file: where it is written and its rows, header first. */
  datatype Manifest = Manifest(path: string, rows: seq<Row>)

  /** `rows` is the header followed by one row per item, in order. */
  predicate ListsSamples(rows: seq<Row>, items: seq<FileEntry>)
  {
    |rows| == |items| + 1 && rows[0] == HEADER &&
    forall i :: 0 <= i < |items| ==> rows[i + 1] == Row(items[i].path, Description(items[i].path))
  }

  /** The glob finds nothing exactly when no entry is a forward read. */
  lemma NoForwardReadIff(entries: seq<FileEntry>)
    ensures ForwardReads(entries) == [] <==> forall e :: e in entries ==> !IsForwardRead(e)
  {
    var items := ForwardReads(entries);
    if items != [] {
      assert items[0] in items;
    }
  }

  /**
   * `create_csv`: raises before opening anything when no forward read is
   * found; otherwise writes the header and one row per forward read to
   * `outpath / run_name`.
   */
  method CreateCsv(outpath: string, entries: seq<FileEntry>, runName: string) returns (r: Result<Manifest, Raised>)
    ensures r.Ok? <==> ForwardReads(entries) != []
    ensures r.Err? ==> r.error == ValueError(NO_FASTQ_MESSAGE)
    ensures r.Ok? ==> r.value.path == Paths.Join(outpath, runName)
    ensures r.Ok? ==> ListsSamples(r.value.rows, ForwardReads(entries))
  {
    var items := ForwardReads(entries);
    if items == [] {
      return Err(ValueError(NO_FASTQ_MESSAGE));
    }
    var rows := [HEADER];
    var i := 0;
    while i < |items|
      invariant 0 <= i <= |items|
      invariant |rows| == i + 1 && rows[0] == HEADER
      invariant forall k :: 0 <= k < i ==> rows[k + 1] == Row(items[k].path, Description(items[k].path))
    {
      rows := rows + [Row(items[i].path, Description(items[i].path))];
      i := i + 1;
    }
    return Ok(Manifest(Paths.Join(outpath, runName), rows));
  }

  // ---------------------------------------------------------------------------
  // Run name, stem and start command
  // ---------------------------------------------------------------------------

  /** A name's last '.'-field is "csv" exactly when it is "csv" or ends in ".csv". */
  lemma CsvFieldIff(name: string)
    ensures LastField(name, '.') == "csv" <==> name == "csv" || EndsWith(name, ".csv")
  {
    var f := LastField(name, '.');
    var n := |name|;
    if f == "csv" && f != name {
      assert name[n - 4..] == ['.'] + f;
    }
    if n >= 4 && EndsWith(name, ".csv") {
      assert name[n - 4] == '.' && name[n - 3..] == "csv";
    }
  }

  /**
   * The run-name rule of `main` and `main_interactive`: a name whose last
   * '.'-field is "csv" is kept, any other gets ".csv" appended.
   */
  function NormaliseRunName(name: string): (r: string)
    ensures r == name <==> name == "csv" || EndsWith(name, ".csv")
    ensures r != name ==> r == name + ".csv"
    ensures r == "csv" || EndsWith(r, ".csv")
  {
    CsvFieldIff(name);
    if LastField(name, '.') == "csv" then name else name + ".csv"
  }

  /** Normalising a normalised name changes nothing. */
  lemma NormaliseRunNameIdempotent(name: string)
    ensures NormaliseRunName(NormaliseRunName(name)) == NormaliseRunName(name)
  {
    var r := NormaliseRunName(name);
    assert r == "csv" || EndsWith(r, ".csv");
  }

  /** `str(Path(run_name))` of a normalised name is the name itself: it ends in 'v', not '/'. */
  lemma RunNamePathIsName(name: string)
    ensures Paths.Normalize(NormaliseRunName(name)) == NormaliseRunName(name)
  {
    var r := NormaliseRunName(name);
    assert r[|r| - 1] == 'v';
    assert Paths.StripTrailingSeparators(r) == r;
  }

  /** `str(run_name).split(".")[0]`. */
  function Stem(runName: string): (s: string)
    ensures s <= runName && '.' !in s
    ensures s == runName || runName[|s|] == '.'
  {
    FirstField(runName, '.')
  }

  /** The run YAML that `-w template` writes, relative to the work directory. */
  function ConfigPath(runName: string): (p: string)
    ensures StartsWith(p, "../config/") && EndsWith(p, ".yaml")
    ensures |p| == |Stem(runName)| + 15 && p[10..|p| - 5] == Stem(runName)
  {
    "../config/" + Stem(runName) + ".yaml"
  }

  /** For a run name without '.', the config file is named after the run itself. */
  lemma ConfigPathOfPlainName(name: string)
    requires '.' !in name
    ensures Stem(NormaliseRunName(name)) == name
    ensures ConfigPath(NormaliseRunName(name)) == "../config/" + name + ".yaml"
  {
    var r := NormaliseRunName(name);
    if name != "csv" {
      if |name| >= 4 {
        assert name[|name| - 4] in name;
      }
      assert r == name + ".csv";
      assert r[|name|] == '.';
      FirstFieldUnique(r, '.', name);
    }
  }

  /** The directory `start_bcbio` changes into: `outpath / stem / "work"`. */
  function WorkDir(outpath: string, runName: string): (w: string)
    ensures Paths.Name(w) == "work"
    ensures Paths.Parent(w) == Paths.Normalize(Paths.Join(outpath, Stem(runName)))
  {
    Paths.JoinIsChild(Paths.Join(outpath, Stem(runName)), "work");
    Paths.Join(Paths.Join(outpath, Stem(runName)), "work")
  }

  /** The command `start_bcbio` runs: the config of the run's stem, on `cores` cores. */
  function StartCommand(runName: string, cores: string): (cmd: seq<string>)
    ensures |cmd| == 4 && cmd[0] == "bcbio_nextgen.py" && cmd[2] == "-n"
    ensures cmd[1] == ConfigPath(runName) && cmd[3] == cores
  {
    ["bcbio_nextgen.py", ConfigPath(runName), "-n", cores]
  }

  /** `--cores` on the command line, "12" when it is not given. */
  function CoresArg(cores: Option<string>): (c: string)
    ensures Truthy(cores) ==> c == cores.value
    ensures !Truthy(cores) ==> c == "12"
  {
    OrDefault(cores, "12")
  }

  // ---------------------------------------------------------------------------
  // The two run flows
  // ---------------------------------------------------------------------------

  /** What a run leaves behind: the manifest, the template file and the start command. */
  datatype RunPlan = RunPlan(
    manifest: Manifest, templatePath: string, template: Yaml, workDir: string, command: seq<string>)

  /**
   * The tail both flows share: `create_csv`, then `create_template` into
   * `outpath / "template.yaml"`, then `start_bcbio`. If the manifest step
   * raises, nothing after it happens.
   */
  method Launch(outpath: string, entries: seq<FileEntry>, runName: string, cores: string, t: Template)
    returns (r: Result<RunPlan, Raised>)
    ensures r.Ok? <==> ForwardReads(entries) != []
    ensures r.Err? ==> r.error == ValueError(NO_FASTQ_MESSAGE)
    ensures r.Ok? ==> r.value.manifest.path == Paths.Join(outpath, runName)
    ensures r.Ok? ==> ListsSamples(r.value.manifest.rows, ForwardReads(entries))
    ensures r.Ok? ==> r.value.templatePath == Paths.Join(outpath, "template.yaml")
    ensures r.Ok? ==> r.value.template == TemplateDoc(t) && ParseTemplate(r.value.template) == Some(t)
    ensures r.Ok? ==> r.value.workDir == WorkDir(outpath, runName)
    ensures r.Ok? ==> r.value.command == StartCommand(runName, cores)
  {
    var csv := CreateCsv(outpath, entries, runName);
    if csv.Err? {
      return Err(csv.error);
    }
    TemplateRoundTrip(t);
    var plan := RunPlan(csv.value, Paths.Join(outpath, "template.yaml"), TemplateDoc(t),
      WorkDir(outpath, runName), StartCommand(runName, cores));
    return Ok(plan);
  }

  /** `main`: the command-line flow. */
  method RunHelper(args: CliArgs, entries: seq<FileEntry>) returns (r: Result<RunPlan, Raised>)
    ensures r.Ok? <==> ForwardReads(entries) != []
    ensures r.Err? ==> r.error == ValueError(NO_FASTQ_MESSAGE)
    ensures r.Ok? ==> r.value.manifest.path == Paths.Join(args.outpath, NormaliseRunName(args.runName))
    ensures r.Ok? ==> ListsSamples(r.value.manifest.rows, ForwardReads(entries))
    ensures r.Ok? ==> r.value.templatePath == Paths.Join(args.outpath, "template.yaml")
    ensures r.Ok? ==> r.value.template == TemplateDoc(GetArgs(args))
    ensures r.Ok? ==> ParseTemplate(r.value.template) == Some(GetArgs(args))
    ensures r.Ok? ==> r.value.workDir == WorkDir(args.outpath, NormaliseRunName(args.runName))
    ensures r.Ok? ==> r.value.command == StartCommand(NormaliseRunName(args.runName), CoresArg(args.cores))
  {
    var t := GetArgs(args);
    var cores := CoresArg(args.cores);
    var runName := NormaliseRunName(args.runName);
    RunNamePathIsName(args.runName);
    r := Launch(Paths.Normalize(args.outpath), entries, runName, cores, t);
    OutPathIsNormalised(args.outpath, runName);
  }

  /** Every path the flows derive from the out path is the same for `str(Path(out))`. */
  lemma OutPathIsNormalised(out: string, runName: string)
    ensures Paths.Join(Paths.Normalize(out), runName) == Paths.Join(out, runName)
    ensures Paths.Join(Paths.Normalize(out), "template.yaml") == Paths.Join(out, "template.yaml")
    ensures WorkDir(Paths.Normalize(out), runName) == WorkDir(out, runName)
  {
    Paths.JoinOfNormalized(out, runName);
    Paths.JoinOfNormalized(out, "template.yaml");
    Paths.JoinOfNormalized(out, Stem(runName));
  }

  /**
   * The fixed template of interactive mode as the source builds it: only the
   * three paths come from the user, and the upload directory is
   * `str(outpath) + "final/"`, which drops the separator.
   */
  function InteractiveTemplateAsWritten(fasta: string, gtf: string, out: string): (t: Template)
    ensures |t.details| == 1
    ensures var d := t.details[0];
      d.analysis == "RNA-seq" && d.genomeBuild == "hg38" && d.algorithm.aligner == "hisat2" &&
      d.algorithm.adapters == AdapterList(["polya"]) && d.algorithm.strandedness == "unstranded"
    ensures var a := t.details[0].algorithm;
      a.transcriptomeFasta == Paths.Normalize(fasta) && a.transcriptomeGtf == Paths.Normalize(gtf)
    ensures StartsWith(t.uploadDir, Paths.Normalize(out)) && EndsWith(t.uploadDir, "final/")
    ensures |t.uploadDir| == |Paths.Normalize(out)| + 6
  {
    Template(
      [Detail("RNA-seq", "hg38",
        Algorithm(Paths.Normalize(fasta), Paths.Normalize(gtf), "hisat2", AdapterList(["polya"]), "unstranded"))],
      Paths.Normalize(out) + "final/")
  }

  /**
   * For an out path of one component, such as "seq" or "seq/", the as-written
   * upload directory ("seqfinal/") is a sibling of the out path, not its child.
   */
  lemma InteractiveUploadDirIsSibling(fasta: string, gtf: string, out: string)
    requires '/' !in Paths.Normalize(out) && Paths.Normalize(out) != "."
    ensures var u := InteractiveTemplateAsWritten(fasta, gtf, out).uploadDir;
      Paths.Parent(u) == "." && Paths.Parent(u) != Paths.Normalize(out)
  {
    var d := Paths.Normalize(out);
    var n := d + "final";
    assert d + "final/" == n + "/";
    assert forall k :: 0 <= k < |n| ==> n[k] in d || n[k] in "final";
    Paths.ParentOfComponent(n);
  }

  /** The interactive template with the upload directory made a child of the out path. */
  function InteractiveTemplate(fasta: string, gtf: string, out: string): (t: Template)
    ensures |t.details| == 1
    ensures var d := t.details[0];
      d.analysis == "RNA-seq" && d.genomeBuild == "hg38" && d.algorithm.aligner == "hisat2" &&
      d.algorithm.adapters == AdapterList(["polya"]) && d.algorithm.strandedness == "unstranded"
    ensures var a := t.details[0].algorithm;
      a.transcriptomeFasta == Paths.Normalize(fasta) && a.transcriptomeGtf == Paths.Normalize(gtf)
    ensures EndsWith(t.uploadDir, "/")
    ensures Paths.Name(Paths.Normalize(t.uploadDir)) == "final"
    ensures Paths.Parent(t.uploadDir) == Paths.Normalize(out)
  {
    var j := Paths.Join(out, "final");
    Paths.JoinIsChild(out, "final");
    Paths.NormalizeDropsOneSeparator(j);
    Template(
      [Detail("RNA-seq", "hg38",
        Algorithm(Paths.Normalize(fasta), Paths.Normalize(gtf), "hisat2", AdapterList(["polya"]), "unstranded"))],
      j + "/")
  }

  /** The corrected template differs from the one built by the source only in its upload directory. */
  lemma InteractiveTemplateFixesOnlyUpload(fasta: string, gtf: string, out: string)
    ensures InteractiveTemplate(fasta, gtf, out) ==
      InteractiveTemplateAsWritten(fasta, gtf, out).(uploadDir := InteractiveTemplate(fasta, gtf, out).uploadDir)
  {
  }

  /**
   * Interactive mode keeps the command-line defaults for analysis, genome,
   * aligner and strandedness, but its adapters are ["polya"] where the
   * command line defaults to ["nextera", "polya"].
   */
  lemma InteractiveDiffersOnlyInAdapters(args: CliArgs)
    requires args.analysis == None && args.genome == None && args.adapter == None
    requires args.strandedness == None && args.aligner == None
    ensures var cli := GetArgs(args).details[0];
      var tty := InteractiveTemplateAsWritten(args.fastaPath, args.gtfPath, args.outpath).details[0];
      cli.analysis == tty.analysis && cli.genomeBuild == tty.genomeBuild &&
      cli.algorithm.aligner == tty.algorithm.aligner &&
      cli.algorithm.strandedness == tty.algorithm.strandedness &&
      cli.algorithm.adapters != tty.algorithm.adapters
  {
    assert DEFAULT_ADAPTERS.names[0] != "polya";
  }

  /**
   * `main_interactive` after the user confirms: the paths are normalised, the
   * run name follows the same rule, the core count is passed through as
   * typed, with no default, and the template is the one the source builds.
   */
  method RunInteractive(fasta: string, gtf: string, out: string, runName: string, cores: string,
    entries: seq<FileEntry>) returns (r: Result<RunPlan, Raised>)
    ensures r.Ok? <==> ForwardReads(entries) != []
    ensures r.Err? ==> r.error == ValueError(NO_FASTQ_MESSAGE)
    ensures r.Ok? ==> r.value.manifest.path == Paths.Join(out, NormaliseRunName(runName))
    ensures r.Ok? ==> ListsSamples(r.value.manifest.rows, ForwardReads(entries))
    ensures r.Ok? ==> r.value.templatePath == Paths.Join(out, "template.yaml")
    ensures r.Ok? ==> r.value.template == TemplateDoc(InteractiveTemplateAsWritten(fasta, gtf, out))
    ensures r.Ok? ==> ParseTemplate(r.value.template) == Some(InteractiveTemplateAsWritten(fasta, gtf, out))
    ensures r.Ok? ==> r.value.workDir == WorkDir(out, NormaliseRunName(runName))
    ensures r.Ok? ==> r.value.command == StartCommand(NormaliseRunName(runName), cores)
  {
    var t := InteractiveTemplateAsWritten(fasta, gtf, out);
    var name := NormaliseRunName(runName);
    RunNamePathIsName(runName);
    r := Launch(Paths.Normalize(out), entries, name, cores, t);
    OutPathIsNormalised(out, name);
  }

  /** The interactive flow with the corrected template, whose upload directory is a child of the out path. */
  method RunInteractiveCorrected(fasta: string, gtf: string, out: string, runName: string, cores: string,
    entries: seq<FileEntry>) returns (r: Result<RunPlan, Raised>)
    ensures r.Ok? <==> ForwardReads(entries) != []
    ensures r.Err? ==> r.error == ValueError(NO_FASTQ_MESSAGE)
    ensures r.Ok? ==> r.value.manifest.path == Paths.Join(out, NormaliseRunName(runName))
    ensures r.Ok? ==> ListsSamples(r.value.manifest.rows, ForwardReads(entries))
    ensures r.Ok? ==> r.value.templatePath == Paths.Join(out, "template.yaml")
    ensures r.Ok? ==> r.value.template == TemplateDoc(InteractiveTemplate(fasta, gtf, out))
    ensures r.Ok? ==> Paths.Parent(InteractiveTemplate(fasta, gtf, out).uploadDir) == Paths.Normalize(out)
    ensures r.Ok? ==> r.value.workDir == WorkDir(out, NormaliseRunName(runName))
    ensures r.Ok? ==> r.value.command == StartCommand(NormaliseRunName(runName), cores)
  {
    var t := InteractiveTemplate(fasta, gtf, out);
    var name := NormaliseRunName(runName);
    RunNamePathIsName(runName);
    r := Launch(Paths.Normalize(out), entries, name, cores, t);
    OutPathIsNormalised(out, name);
  }
}
