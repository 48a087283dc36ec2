/**
 * The diagnosis logic of func_doctor.py: which bcbio directories $PATH
 * holds and where the installation lives, which reference files the
 * download mode fetches and from where, and how the first lines of the
 * genome files are read to tell versioned gene names and "chr"
 * annotations apart. The environment, the downloads and the files are
 * inputs; what the doctor prints is returned as strings.
 */
module FuncDoctor {
  import opened Wrappers
  import opened Python
  import Paths

  /** What the doctor raises. */
  datatype DoctorError = UnboundLocal(variable: string)

  // ---------------------------------------------------------------------------
  // $PATH
  // ---------------------------------------------------------------------------

  /** The fnmatch pattern "*" + "/bcbio/" + "**": the entry has "/bcbio/" somewhere. */
  predicate UnderBcbio(x: string)
  {
    Contains(x, "/bcbio/")
  }

  /** The fnmatch pattern "*" + "/bcbio": the entry ends in "/bcbio". */
  predicate EndsInBcbio(x: string)
  {
    EndsWith(x, "/bcbio")
  }

  /** The two prefilters, each in the set's iteration order, first list first. */
  function Matching(order: seq<string>): (m: seq<string>)
    ensures forall x :: x in m <==> x in order && (UnderBcbio(x) || EndsInBcbio(x))
  {
    Filter(order, (x: string) => UnderBcbio(x)) + Filter(order, (x: string) => EndsInBcbio(x))
  }

  datatype PathKind = ToolsBin | AnacondaBin | BcbioDir | Other

  /** The three suffix tests of the loop; at most one of them can hold for a path. */
  function Classify(p: string): (k: PathKind)
    ensures k == ToolsBin <==> EndsWith(p, "/bcbio/tools/bin")
    ensures k == AnacondaBin <==> EndsWith(p, "/bcbio/anaconda/bin")
    ensures k == BcbioDir <==> EndsWith(p, "/bcbio")
  {
    if EndsWith(p, "/bcbio/tools/bin") then
      assert p[|p| - 5] == 's' && p[|p| - 1] == 'n';
      ToolsBin
    else if EndsWith(p, "/bcbio/anaconda/bin") then
      assert p[|p| - 1] == 'n';
      AnacondaBin
    else if EndsWith(p, "/bcbio") then BcbioDir
    else Other
  }

  /** How an entry of $PATH is classified: after `Path(x)`. */
  function Kind(x: string): PathKind
  {
    Classify(Paths.Normalize(x))
  }

  /** `Path(*path.parts[:-2])` for a path ending in "/bcbio/tools/bin": the path without "/tools/bin". */
  function InstallRoot(p: string): (r: string)
    requires EndsWith(p, "/bcbio/tools/bin")
    ensures r + "/tools/bin" == p && EndsWith(r, "/bcbio")
  {
    var r := p[..|p| - 10];
    assert r + "/tools/bin" == p;
    assert r[|r| - 6..] == p[|p| - 16..][..6];
    r
  }

  /** Dropping the last two parts is taking the parent twice. */
  lemma InstallRootIsGrandparent(p: string)
    requires EndsWith(p, "/bcbio/tools/bin")
    ensures Paths.Parent(Paths.Parent(p)) == InstallRoot(p)
  {
    var r := InstallRoot(p);
    var tools := r + "/" + "tools";
    assert p == tools + "/" + "bin";
    assert r[|r| - 1] == 'o' && tools[|tools| - 1] == 's';
    Paths.ParentOfChild(tools, "bin");
    Paths.ParentOfChild(r, "tools");
  }

  /** A suffix that starts with `sub` puts `sub` where the suffix begins. */
  lemma SuffixOccurs(s: string, suffix: string, sub: string)
    requires EndsWith(s, suffix) && StartsWith(suffix, sub)
    ensures OccursAt(s, sub, |s| - |suffix|)
  {
    var i := |s| - |suffix|;
    assert s[i..i + |sub|] == s[i..][..|sub|];
  }

  /** An entry both prefilters reject is never classified: the prefilters lose nothing. */
  lemma ClassifiedIsMatched(x: string)
    requires Kind(x) != Other
    ensures UnderBcbio(x) || EndsInBcbio(x)
  {
    var n := Paths.Normalize(x);
    assert x != "";
    assert x[..|n|] == n;
    if EndsWith(n, "/bcbio/tools/bin") || EndsWith(n, "/bcbio/anaconda/bin") {
      var suffix := if EndsWith(n, "/bcbio/tools/bin") then "/bcbio/tools/bin" else "/bcbio/anaconda/bin";
      SuffixOccurs(n, suffix, "/bcbio/");
      var i := |n| - |suffix|;
      assert x[i..i + 7] == n[i..i + 7];
      assert OccursAt(x, "/bcbio/", i);
    } else if |n| < |x| {
      var i := |n| - 6;
      assert x[i..i + 7] == n[i..] + [x[|n|]];
      assert OccursAt(x, "/bcbio/", i);
    }
  }

  /** `[Path(x) for x in matching]`. */
  function PathsOf(matching: seq<string>): (ps: seq<string>)
    ensures |ps| == |matching| && forall k :: 0 <= k < |matching| ==> ps[k] == Paths.Normalize(matching[k])
  {
    seq(|matching|, k requires 0 <= k < |matching| => Paths.Normalize(matching[k]))
  }

  /** What one path assigns to `bcbio_path`: the root of a tools/bin path, else nothing. */
  function RootReading(p: string): (r: Option<string>)
    ensures r.Some? <==> Classify(p) == ToolsBin
    ensures r.Some? ==> EndsWith(p, "/bcbio/tools/bin") && r.value == InstallRoot(p)
  {
    if Classify(p) == ToolsBin then Some(InstallRoot(p)) else None
  }

  function RootReadings(ps: seq<string>): (rs: seq<Option<string>>)
    ensures |rs| == |ps| && forall k :: 0 <= k < |ps| ==> rs[k] == RootReading(ps[k])
  {
    seq(|ps|, k requires 0 <= k < |ps| => RootReading(ps[k]))
  }

  /** One row of `req_paths`: the suffix looked for, whether it was found, whether it is critical. */
  datatype Requirement = Requirement(suffix: string, found: bool, critical: bool)

  /** Some entry of $PATH is of the given kind. */
  predicate Present(envPath: string, kind: PathKind)
  {
    exists x :: x in Split(envPath, ':') && Kind(x) == kind
  }

  /** `set(...)` iterated: an enumeration of the distinct entries, in an order the set chooses. */
  method Enumerate(entries: seq<string>) returns (order: seq<string>)
    ensures forall x :: x in order <==> x in entries
    ensures forall i, j :: 0 <= i < j < |order| ==> order[i] != order[j]
  {
    var remaining := set x | x in entries;
    order := [];
    while remaining != {}
      invariant forall x :: x in entries <==> x in order || x in remaining
      invariant forall x :: x in order ==> x !in remaining
      invariant forall i, j :: 0 <= i < j < |order| ==> order[i] != order[j]
      decreases |remaining|
    {
      var x :| x in remaining;
      order := order + [x];
      remaining := remaining - {x};
    }
  }

  /** Some path of the list is of the given kind. */
  predicate Seen(ps: seq<string>, kind: PathKind)
    decreases |ps|
  {
    ps != [] && (Seen(ps[..|ps| - 1], kind) || Classify(ps[|ps| - 1]) == kind)
  }

  lemma {:induction false} SeenIffSome(ps: seq<string>, kind: PathKind)
    ensures Seen(ps, kind) <==> exists k :: 0 <= k < |ps| && Classify(ps[k]) == kind
    decreases |ps|
  {
    if ps != [] {
      var front := ps[..|ps| - 1];
      SeenIffSome(front, kind);
      assert forall k :: 0 <= k < |front| ==> front[k] == ps[k];
    }
  }

  /** An entry of one of the three kinds survives the prefilters and is seen by the loop. */
  lemma SeenIfEntry(order: seq<string>, x: string, kind: PathKind)
    requires x in order && Kind(x) == kind && kind != Other
    ensures Seen(PathsOf(Matching(order)), kind)
  {
    var matching := Matching(order);
    var ps := PathsOf(matching);
    ClassifiedIsMatched(x);
    var k :| 0 <= k < |matching| && matching[k] == x;
    assert Classify(ps[k]) == kind;
    SeenIffSome(ps, kind);
  }

  /** Whatever the loop sees comes from an entry of that kind. */
  lemma EntryIfSeen(order: seq<string>, kind: PathKind)
    requires Seen(PathsOf(Matching(order)), kind)
    ensures exists x :: x in order && Kind(x) == kind
  {
    var matching := Matching(order);
    var ps := PathsOf(matching);
    SeenIffSome(ps, kind);
    var k :| 0 <= k < |ps| && Classify(ps[k]) == kind;
    assert matching[k] in matching && Kind(matching[k]) == kind;
  }

  /** For the three kinds, looking at the matched entries is looking at all of $PATH. */
  lemma SeenIffPresent(envPath: string, order: seq<string>, kind: PathKind)
    requires forall x :: x in order <==> x in Split(envPath, ':')
    requires kind != Other
    ensures Seen(PathsOf(Matching(order)), kind) <==> Present(envPath, kind)
  {
    if Present(envPath, kind) {
      var x :| x in Split(envPath, ':') && Kind(x) == kind;
      SeenIfEntry(order, x, kind);
    }
    if Seen(PathsOf(Matching(order)), kind) {
      EntryIfSeen(order, kind);
    }
  }

  lemma RootReadingsStep(ps: seq<string>, i: nat)
    requires i < |ps|
    ensures Carried(RootReadings(ps[..i + 1])) == if RootReading(ps[i]).Some? then RootReading(ps[i]) else Carried(RootReadings(ps[..i]))
  {
    assert RootReadings(ps[..i + 1]) == RootReadings(ps[..i]) + [RootReading(ps[i])];
    CarriedStep(RootReadings(ps[..i]), RootReading(ps[i]));
  }

  /** The loop of `check_PATH` over the matched paths. */
  method ScanPaths(ps: seq<string>) returns (tools: bool, anaconda: bool, bcbio: bool, root: Option<string>)
    ensures tools <==> Seen(ps, ToolsBin)
    ensures anaconda <==> Seen(ps, AnacondaBin)
    ensures bcbio <==> Seen(ps, BcbioDir)
    ensures root == Carried(RootReadings(ps))
  {
    tools, anaconda, bcbio := false, false, false;
    root := None;
    for i := 0 to |ps|
      invariant tools <==> Seen(ps[..i], ToolsBin)
      invariant anaconda <==> Seen(ps[..i], AnacondaBin)
      invariant bcbio <==> Seen(ps[..i], BcbioDir)
      invariant root == Carried(RootReadings(ps[..i]))
    {
      var path := ps[i];
      assert ps[..i + 1][..i] == ps[..i];
      RootReadingsStep(ps, i);
      var kind := Classify(path);
      if kind == ToolsBin {
        root := Some(InstallRoot(path));
        tools := true;
      } else if kind == AnacondaBin {
        anaconda := true;
      } else if kind == BcbioDir {
        bcbio := true;
      }
    }
    assert ps[..|ps|] == ps;
  }

  /**
   * `check_PATH`: flags each required directory found on $PATH and returns
   * the installation root; `bcbio_path` is bound only by a tools/bin entry,
   * so without one the return raises.
   */
  method CheckPath(envPath: string) returns (order: seq<string>, report: seq<Requirement>, installRoot: Result<string, DoctorError>)
    ensures forall x :: x in order <==> x in Split(envPath, ':')
    ensures forall i, j :: 0 <= i < j < |order| ==> order[i] != order[j]
    ensures |report| == 3
    ensures report[0].suffix == "bcbio/tools/bin" && report[0].critical
    ensures report[1].suffix == "bcbio/anaconda/bin" && !report[1].critical
    ensures report[2].suffix == "bcbio" && !report[2].critical
    ensures report[0].found <==> Present(envPath, ToolsBin)
    ensures report[1].found <==> Present(envPath, AnacondaBin)
    ensures report[2].found <==> Present(envPath, BcbioDir)
    ensures installRoot.Err? <==> !Present(envPath, ToolsBin)
    ensures installRoot.Err? ==> installRoot.error == UnboundLocal("bcbio_path")
    ensures installRoot.Ok? ==> Carried(RootReadings(PathsOf(Matching(order)))) == Some(installRoot.value)
  {
    order := Enumerate(Split(envPath, ':'));
    var matching := Matching(order);
    var ps := PathsOf(matching);
    var tools, anaconda, bcbio, root := ScanPaths(ps);
    SeenIffPresent(envPath, order, ToolsBin);
    SeenIffPresent(envPath, order, AnacondaBin);
    SeenIffPresent(envPath, order, BcbioDir);
    report := [
      Requirement("bcbio/tools/bin", tools, true),
      Requirement("bcbio/anaconda/bin", anaconda, false),
      Requirement("bcbio", bcbio, false)];
    installRoot := if root.None? then Err(UnboundLocal("bcbio_path")) else Ok(root.value);
    assert root.None? <==> !Seen(ps, ToolsBin) by {
      SeenIffSome(ps, ToolsBin);
      var rs := RootReadings(ps);
      CarriedNoneIff(rs);
      assert (forall k :: 0 <= k < |rs| ==> rs[k].None?) <==> !Seen(ps, ToolsBin);
    }
  }

  // ---------------------------------------------------------------------------
  // Downloads
  // ---------------------------------------------------------------------------

  /** The reference files the download mode knows. */
  datatype RefFile = Cdna | Gtf | GtfChr

  /** The position of each file in the download list. */
  function Rank(f: RefFile): nat
  {
    match f
    case Cdna => 0
    case Gtf => 1
    case GtfChr => 2
  }

  /** The key of `download_info`. */
  function Key(f: RefFile): string
  {
    match f
    case Cdna => "cdna"
    case Gtf => "gtf"
    case GtfChr => "gtf_chr"
  }

  const CDNA_NAME := "Homo_sapiens.GRCh38.cdna.all.fa.gz"
  const GTF_NAME := "Homo_sapiens.GRCh38.96.gtf.gz"
  const GTF_CHR_NAME := "hg38.ncbiRefSeq.gtf.gz"

  /** The file name each download is saved under (`download_info[key][1]`). */
  function FileName(f: RefFile): string
  {
    match f
    case Cdna => CDNA_NAME
    case Gtf => GTF_NAME
    case GtfChr => GTF_CHR_NAME
  }

  const ENSEMBL_CDNA_DIR := "http://ftp.ensembl.org/pub/release-96/fasta/homo_sapiens/cdna/"
  const ENSEMBL_GTF_DIR := "http://ftp.ensembl.org/pub/release-96/gtf/homo_sapiens/"
  const UCSC_GENES_DIR := "https://hgdownload.cse.ucsc.edu/goldenpath/hg38/bigZips/genes/"

  /** The directory part of each URL. */
  function Mirror(f: RefFile): string
  {
    match f
    case Cdna => ENSEMBL_CDNA_DIR
    case Gtf => ENSEMBL_GTF_DIR
    case GtfChr => UCSC_GENES_DIR
  }

  const CDNA_URL := ENSEMBL_CDNA_DIR + CDNA_NAME
  const GTF_URL := ENSEMBL_GTF_DIR + GTF_NAME
  const GTF_CHR_URL := UCSC_GENES_DIR + GTF_CHR_NAME

  /** The URL each download fetches (`download_info[key][0]`). */
  function Url(f: RefFile): string
  {
    match f
    case Cdna => CDNA_URL
    case Gtf => GTF_URL
    case GtfChr => GTF_CHR_URL
  }

  /** Each file name is one non-empty path component. */
  lemma FileNameIsComponent(f: RefFile)
    ensures FileName(f) != "" && '/' !in FileName(f)
  {
  }

  /** Each download is saved under the last component of its URL. */
  lemma FileNameIsUrlTail(f: RefFile)
    ensures EndsWith(Url(f), "/" + FileName(f))
  {
    var m := Mirror(f);
    assert m != "" && m[|m| - 1] == '/';
    assert Url(f) == m + FileName(f);
    AfterSeparator(m, FileName(f));
  }

  lemma AfterSeparator(m: string, n: string)
    requires m != "" && m[|m| - 1] == '/'
    ensures EndsWith(m + n, "/" + n)
  {
    assert (m + n)[|m + n| - |n| - 1..] == [m[|m| - 1]] + n;
  }

  /** No two downloads share a key or a file name. */
  lemma FileNamesDiffer(f: RefFile, g: RefFile)
    requires f != g
    ensures FileName(f) != FileName(g) && Key(f) != Key(g)
  {
    assert |FileName(f)| != |FileName(g)|;
  }

  /** The `main -d` list: cdna, gtf, gtf_chr, each exactly when its flag is set. */
  method SelectDownloads(cdna: bool, gtf: bool, gtfChr: bool) returns (toDownload: seq<RefFile>)
    ensures (Cdna in toDownload <==> cdna) && (Gtf in toDownload <==> gtf) && (GtfChr in toDownload <==> gtfChr)
    ensures forall i, j :: 0 <= i < j < |toDownload| ==> Rank(toDownload[i]) < Rank(toDownload[j])
  {
    toDownload := [];
    if cdna {
      toDownload := toDownload + [Cdna];
    }
    if gtf {
      toDownload := toDownload + [Gtf];
    }
    if gtfChr {
      toDownload := toDownload + [GtfChr];
    }
  }

  /** One `download_url(url, output_path, fname)` call. */
  datatype DownloadRequest = DownloadRequest(url: string, destination: string, fname: string)

  /** The call `download_genes` makes for one file. */
  function Request(downloadPath: string, f: RefFile): DownloadRequest
  {
    DownloadRequest(Url(f), Paths.Join(downloadPath, FileName(f)), FileName(f))
  }

  /** A download lands in the download directory, under the last component of its URL. */
  lemma RequestIsInDirectory(downloadPath: string, f: RefFile)
    ensures var r := Request(downloadPath, f);
      Paths.Parent(r.destination) == Paths.Normalize(downloadPath) &&
      Paths.Name(r.destination) == r.fname &&
      EndsWith(r.url, "/" + r.fname)
  {
    FileNameIsComponent(f);
    FileNameIsUrlTail(f);
    Paths.JoinIsChild(downloadPath, FileName(f));
  }

  /** `download_genes`: one request per listed file, in list order, into the download directory. */
  method DownloadGenes(downloadPath: string, toDownload: seq<RefFile>) returns (requests: seq<DownloadRequest>)
    ensures |requests| == |toDownload|
    ensures forall i :: 0 <= i < |toDownload| ==> requests[i] == Request(downloadPath, toDownload[i])
  {
    requests := [];
    for i := 0 to |toDownload|
      invariant |requests| == i
      invariant forall k :: 0 <= k < i ==> requests[k] == Request(downloadPath, toDownload[k])
    {
      var key := toDownload[i];
      var url, fname := Url(key), FileName(key);
      var request := DownloadRequest(url, Paths.Join(downloadPath, fname), fname);
      assert request == Request(downloadPath, key);
      requests := requests + [request];
    }
  }

  const NOTHING_TO_DOWNLOAD := "No files specified for download"
  const RUNNING_DOWNLOADS := "Running download script..."

  /**
   * The `-d` branch of `main`: a message, and one download into the output
   * directory for each file whose option is set, no two to the same place.
   */
  method DownloadMain(outputPath: string, cdna: bool, gtf: bool, gtfChr: bool)
    returns (message: string, requests: seq<DownloadRequest>)
    ensures message == NOTHING_TO_DOWNLOAD <==> !cdna && !gtf && !gtfChr
    ensures message != NOTHING_TO_DOWNLOAD ==> message == RUNNING_DOWNLOADS
    ensures Request(outputPath, Cdna) in requests <==> cdna
    ensures Request(outputPath, Gtf) in requests <==> gtf
    ensures Request(outputPath, GtfChr) in requests <==> gtfChr
    ensures forall r :: r in requests ==> exists f: RefFile :: r == Request(outputPath, f)
    ensures forall i, j :: 0 <= i < j < |requests| ==> requests[i].destination != requests[j].destination
  {
    var toDownload := SelectDownloads(cdna, gtf, gtfChr);
    if toDownload == [] {
      message, requests := NOTHING_TO_DOWNLOAD, [];
    } else {
      message := RUNNING_DOWNLOADS;
      assert |message| != |NOTHING_TO_DOWNLOAD| && toDownload[0] in toDownload;
      requests := DownloadGenes(outputPath, toDownload);
      forall i, j | 0 <= i < j < |requests|
        ensures requests[i].destination != requests[j].destination
      {
        FileNamesDiffer(toDownload[i], toDownload[j]);
        RequestIsInDirectory(outputPath, toDownload[i]);
        RequestIsInDirectory(outputPath, toDownload[j]);
      }
    }
    RequestsIffSelected(outputPath, toDownload, requests);
  }

  /** The requests made for a list of distinct-ranked files are exactly those files' requests. */
  lemma RequestsIffSelected(outputPath: string, toDownload: seq<RefFile>, requests: seq<DownloadRequest>)
    requires |requests| == |toDownload|
    requires forall i :: 0 <= i < |toDownload| ==> requests[i] == Request(outputPath, toDownload[i])
    ensures forall f :: Request(outputPath, f) in requests <==> f in toDownload
    ensures forall r :: r in requests ==> exists f: RefFile :: r == Request(outputPath, f)
  {
    forall f ensures Request(outputPath, f) in requests <==> f in toDownload {
      if Request(outputPath, f) in requests {
        var i :| 0 <= i < |requests| && requests[i] == Request(outputPath, f);
        if toDownload[i] != f {
          FileNamesDiffer(toDownload[i], f);
        }
      }
      if f in toDownload {
        var i :| 0 <= i < |toDownload| && toDownload[i] == f;
        assert requests[i] == Request(outputPath, f);
      }
    }
    forall r | r in requests ensures exists f: RefFile :: r == Request(outputPath, f) {
      var i :| 0 <= i < |requests| && requests[i] == r;
      assert r == Request(outputPath, toDownload[i]);
    }
  }

  // ---------------------------------------------------------------------------
  // First-line checks
  // ---------------------------------------------------------------------------

  /** A line as iterating over a text file yields it: never empty. */
  type Line = s: string | s != [] witness "\n"

  /** One file the glob yields, with its lines. */
  datatype TextFile = TextFile(name: string, lines: seq<Line>)

  /** The gene name a FASTA file offers: the first space-separated token of its first line. */
  function NameReading(f: TextFile): Option<string>
  {
    if f.lines == [] then None else Some(FirstField(f.lines[0], ' '))
  }

  function NameReadings(files: seq<TextFile>): (rs: seq<Option<string>>)
    ensures |rs| == |files| && forall k :: 0 <= k < |files| ==> rs[k] == NameReading(files[k])
  {
    seq(|files|, k requires 0 <= k < |files| => NameReading(files[k]))
  }

  /** The gene name carries a version exactly when it contains a '.'. */
  predicate Versioned(geneName: string)
  {
    '.' in geneName
  }

  const VERSIONED_FORMAT := " is in the format: XXXXXXXX.XX\nIf this does not match your fastQ file, please take a look at remove_versions.py"
  const UNVERSIONED_FORMAT := " is in the format: XXXXXXXX"

  /** The line printed for a file. */
  function NameMessage(name: string, geneName: string): string
  {
    if Versioned(geneName) then name + VERSIONED_FORMAT else name + UNVERSIONED_FORMAT
  }

  /** The line starts with the file name and names the versioned format exactly when the gene name has a '.'. */
  lemma NameMessageReportsVersion(name: string, geneName: string)
    ensures var m := NameMessage(name, geneName);
      name <= m &&
      (m[|name|..] == VERSIONED_FORMAT <==> Versioned(geneName)) &&
      (m[|name|..] == UNVERSIONED_FORMAT <==> !Versioned(geneName))
  {
    var m := NameMessage(name, geneName);
    assert m[|name|..] == if Versioned(geneName) then VERSIONED_FORMAT else UNVERSIONED_FORMAT;
    assert |VERSIONED_FORMAT| != |UNVERSIONED_FORMAT|;
  }

  /**
   * The messages `check_gene_names` prints for the files in turn, while the
   * first file offers a name: each file is reported with the name the loop
   * variable holds after visiting it.
   */
  function NameMessages(files: seq<TextFile>): (ms: seq<string>)
    requires files == [] || files[0].lines != []
    ensures |ms| == |files|
    decreases |files|
  {
    if files == [] then []
    else
      var readings := NameReadings(files);
      CarriedBoundByFirst(readings);
      NameMessages(files[..|files| - 1]) + [NameMessage(files[|files| - 1].name, Carried(readings).value)]
  }

  /**
   * The message for a file is made from the name carried after visiting it,
   * which is its own first token when it has a first line.
   */
  lemma {:induction false} NameMessagesAt(files: seq<TextFile>, i: nat)
    requires i < |files| && files[0].lines != []
    ensures Carried(NameReadings(files[..i + 1])).Some?
    ensures NameMessages(files)[i] == NameMessage(files[i].name, Carried(NameReadings(files[..i + 1])).value)
    ensures files[i].lines != [] ==> NameMessages(files)[i] == NameMessage(files[i].name, FirstField(files[i].lines[0], ' '))
    decreases |files|
  {
    CarriedBoundByFirst(NameReadings(files[..i + 1]));
    NameReadingsStep(files, i);
    if i < |files| - 1 {
      var front := files[..|files| - 1];
      NameMessagesAt(front, i);
      assert front[..i + 1] == files[..i + 1];
    } else {
      assert files[..i + 1] == files;
    }
  }

  /** Visiting one more file updates the carried name as the loop body does. */
  lemma NameReadingsStep(files: seq<TextFile>, i: nat)
    requires i < |files|
    ensures Carried(NameReadings(files[..i + 1])) ==
      if NameReading(files[i]).Some? then NameReading(files[i]) else Carried(NameReadings(files[..i]))
  {
    assert NameReadings(files[..i + 1]) == NameReadings(files[..i]) + [NameReading(files[i])];
    CarriedStep(NameReadings(files[..i]), NameReading(files[i]));
  }

  /** Visiting one more file appends its message, made from the name carried after it. */
  lemma NameMessagesStep(files: seq<TextFile>, i: nat)
    requires i < |files| && files[0].lines != []
    ensures var c := Carried(NameReadings(files[..i + 1]));
      c.Some? && NameMessages(files[..i + 1]) == NameMessages(files[..i]) + [NameMessage(files[i].name, c.value)]
  {
    CarriedBoundByFirst(NameReadings(files[..i + 1]));
    assert files[..i + 1][..i] == files[..i];
  }

  /**
   * `check_gene_names`: one message per FASTA file, from the first token of
   * its first line. An empty file reuses the previous file's token; an
   * empty first file leaves `gene_name` unbound and raises.
   */
  method CheckGeneNames(files: seq<TextFile>) returns (r: Result<seq<string>, DoctorError>)
    ensures r.Err? <==> files != [] && files[0].lines == []
    ensures r.Err? ==> r.error == UnboundLocal("gene_name")
    ensures r.Ok? ==> (files == [] || files[0].lines != []) && r.value == NameMessages(files)
  {
    var messages: seq<string> := [];
    var geneName: Option<string> := None;
    for i := 0 to |files|
      invariant geneName == Carried(NameReadings(files[..i]))
      invariant i > 0 ==> files[0].lines != [] && geneName.Some?
      invariant i > 0 ==> messages == NameMessages(files[..i])
      invariant i == 0 ==> messages == []
    {
      NameReadingsStep(files, i);
      var lines := files[i].lines;
      if |lines| > 0 {
        geneName := Some(FirstField(lines[0], ' '));
      }
      if geneName.None? {
        return Err(UnboundLocal("gene_name"));
      }
      NameMessagesStep(files, i);
      messages := messages + [NameMessage(files[i].name, geneName.value)];
    }
    assert files[..|files|] == files;
    return Ok(messages);
  }

  /** The first line not starting with '#', if any. */
  function FirstDataLine(lines: seq<Line>): (r: Option<Line>)
    decreases |lines|
  {
    if lines == [] then None
    else if lines[0][0] != '#' then Some(lines[0])
    else FirstDataLine(lines[1..])
  }

  /** There is no data line exactly when every line is a comment; a data line is one of the lines and no comment. */
  lemma {:induction false} FirstDataLineIsFirst(lines: seq<Line>)
    ensures FirstDataLine(lines).None? <==> forall k :: 0 <= k < |lines| ==> lines[k][0] == '#'
    ensures FirstDataLine(lines).Some? ==> FirstDataLine(lines).value in lines && FirstDataLine(lines).value[0] != '#'
    decreases |lines|
  {
    if lines != [] && lines[0][0] == '#' {
      FirstDataLineIsFirst(lines[1..]);
      assert forall k :: 0 < k < |lines| ==> lines[1..][k - 1] == lines[k];
    }
  }

  /** The annotation a GTF file offers: the first tab-separated field of its first data line. */
  function AnnotationReading(f: TextFile): Option<string>
  {
    var line := FirstDataLine(f.lines);
    if line.None? then None else Some(FirstField(line.value, '\t'))
  }

  function AnnotationReadings(files: seq<TextFile>): (rs: seq<Option<string>>)
    ensures |rs| == |files| && forall k :: 0 <= k < |files| ==> rs[k] == AnnotationReading(files[k])
  {
    seq(|files|, k requires 0 <= k < |files| => AnnotationReading(files[k]))
  }

  /** The sequence names carry the "chr" prefix exactly when the field contains "chr". */
  predicate ChrAnnotated(field: string)
  {
    Contains(field, "chr")
  }

  const CHR_FORMAT := " is annotated: chrX"
  const PLAIN_FORMAT := " is annotated: X"

  /** The line printed for a file. */
  function AnnotationMessage(name: string, field: string): string
  {
    if ChrAnnotated(field) then name + CHR_FORMAT else name + PLAIN_FORMAT
  }

  /** The line starts with the file name and names the "chr" format exactly when the field contains "chr". */
  lemma AnnotationMessageReportsChr(name: string, field: string)
    ensures var m := AnnotationMessage(name, field);
      name <= m &&
      (m[|name|..] == CHR_FORMAT <==> ChrAnnotated(field)) &&
      (m[|name|..] == PLAIN_FORMAT <==> !ChrAnnotated(field))
  {
    var m := AnnotationMessage(name, field);
    assert m[|name|..] == if ChrAnnotated(field) then CHR_FORMAT else PLAIN_FORMAT;
    assert |CHR_FORMAT| != |PLAIN_FORMAT|;
  }

  /** Whether the first file offers an annotation, so that the loop variable is bound from the start. */
  predicate FirstOffersAnnotation(files: seq<TextFile>)
  {
    files == [] || FirstDataLine(files[0].lines).Some?
  }

  /** The per-file lines `check_gene_annotation` prints, each from the field carried after visiting the file. */
  function AnnotationMessages(files: seq<TextFile>): (ms: seq<string>)
    requires FirstOffersAnnotation(files)
    ensures |ms| == |files|
    decreases |files|
  {
    if files == [] then []
    else
      var readings := AnnotationReadings(files);
      CarriedBoundByFirst(readings);
      AnnotationMessages(files[..|files| - 1])
        + [AnnotationMessage(files[|files| - 1].name, Carried(readings).value)]
  }

  /**
   * The message for a file is made from the field carried after visiting it,
   * which is its own when it has a data line.
   */
  lemma {:induction false} AnnotationMessagesAt(files: seq<TextFile>, i: nat)
    requires i < |files| && FirstDataLine(files[0].lines).Some?
    ensures Carried(AnnotationReadings(files[..i + 1])).Some?
    ensures AnnotationMessages(files)[i] ==
      AnnotationMessage(files[i].name, Carried(AnnotationReadings(files[..i + 1])).value)
    ensures FirstDataLine(files[i].lines).Some? ==>
      (AnnotationMessages(files)[i] == AnnotationMessage(files[i].name, FirstField(FirstDataLine(files[i].lines).value, '\t')))
    decreases |files|
  {
    CarriedBoundByFirst(AnnotationReadings(files[..i + 1]));
    AnnotationReadingsStep(files, i);
    if i < |files| - 1 {
      var front := files[..|files| - 1];
      AnnotationMessagesAt(front, i);
      assert front[..i + 1] == files[..i + 1];
    } else {
      assert files[..i + 1] == files;
    }
  }

  /**
   * The inner loop of `check_gene_annotation` over one file: skip the lines
   * starting with '#', take the first tab field of the first other line, and
   * otherwise leave the loop variable as it was.
   */
  method ReadAnnotation(lines: seq<Line>, current: Option<string>) returns (v: Option<string>)
    ensures v == (var a := AnnotationReading(TextFile("", lines)); if a.Some? then a else current)
  {
    v := current;
    var j := 0;
    while j < |lines|
      invariant 0 <= j <= |lines|
      invariant forall k :: 0 <= k < j ==> lines[k][0] == '#'
      invariant v == current
    {
      if lines[j][0] == '#' {
        j := j + 1;
        continue;
      }
      FirstDataLineAt(lines, j);
      v := Some(FirstField(lines[j], '\t'));
      break;
    }
    if j == |lines| {
      FirstDataLineIsFirst(lines);
    }
  }

  /** The two download hints printed after the per-file messages; `HintText` gives their text. */
  datatype Hint = NonChrDownload | ChrDownload

  /** What the annotation check prints: one message per file, then the hints. */
  datatype AnnotationReport = AnnotationReport(messages: seq<string>, hints: seq<Hint>)

  /** Visiting one more file updates the carried field as the loop body does. */
  lemma AnnotationReadingsStep(files: seq<TextFile>, i: nat)
    requires i < |files|
    ensures Carried(AnnotationReadings(files[..i + 1])) ==
      if AnnotationReading(files[i]).Some? then AnnotationReading(files[i]) else Carried(AnnotationReadings(files[..i]))
  {
    assert AnnotationReadings(files[..i + 1]) == AnnotationReadings(files[..i]) + [AnnotationReading(files[i])];
    CarriedStep(AnnotationReadings(files[..i]), AnnotationReading(files[i]));
  }

  /** Visiting one more file appends its message, made from the field carried after it. */
  lemma AnnotationMessagesStep(files: seq<TextFile>, i: nat)
    requires i < |files| && FirstDataLine(files[0].lines).Some?
    ensures var c := Carried(AnnotationReadings(files[..i + 1]));
      c.Some? && AnnotationMessages(files[..i + 1]) == AnnotationMessages(files[..i]) + [AnnotationMessage(files[i].name, c.value)]
  {
    CarriedBoundByFirst(AnnotationReadings(files[..i + 1]));
    assert files[..i + 1][..i] == files[..i];
  }

  /**
   * `check_gene_annotation`: one message per GTF file, from the first tab
   * field of its first line that does not start with '#', then the two
   * download hints. A file without such a line reuses the previous file's
   * field; if the first file has none, `gene_annotation` is unbound and the
   * check raises.
   */
  method CheckGeneAnnotation(files: seq<TextFile>) returns (r: Result<AnnotationReport, DoctorError>)
    ensures r.Err? <==> !FirstOffersAnnotation(files)
    ensures r.Err? ==> r.error == UnboundLocal("gene_annotation")
    ensures r.Ok? ==> FirstOffersAnnotation(files) && r.value == AnnotationReport(AnnotationMessages(files), [NonChrDownload, ChrDownload])
  {
    var messages: seq<string> := [];
    var geneAnnotation: Option<string> := None;
    for i := 0 to |files|
      invariant geneAnnotation == Carried(AnnotationReadings(files[..i]))
      invariant i > 0 ==> FirstOffersAnnotation(files) && geneAnnotation.Some?
      invariant i > 0 ==> messages == AnnotationMessages(files[..i])
      invariant i == 0 ==> messages == []
    {
      AnnotationReadingsStep(files, i);
      geneAnnotation := ReadAnnotation(files[i].lines, geneAnnotation);
      if geneAnnotation.None? {
        return Err(UnboundLocal("gene_annotation"));
      }
      AnnotationMessagesStep(files, i);
      messages := messages + [AnnotationMessage(files[i].name, geneAnnotation.value)];
    }
    assert files[..|files|] == files;
    return Ok(AnnotationReport(messages, [NonChrDownload, ChrDownload]));
  }

  /** The first line that does not start with '#' is the first data line. */
  lemma {:induction false} FirstDataLineAt(lines: seq<Line>, j: nat)
    requires j < |lines| && lines[j][0] != '#'
    requires forall k :: 0 <= k < j ==> lines[k][0] == '#'
    ensures FirstDataLine(lines) == Some(lines[j])
    decreases j
  {
    if j > 0 {
      FirstDataLineAt(lines[1..], j - 1);
    }
  }

  // ---------------------------------------------------------------------------
  // The download hints printed after the annotation check
  // ---------------------------------------------------------------------------

  /** The download option that fetches each file, as the usage text documents it. */
  function FlagOf(f: RefFile): string
  {
    match f
    case Cdna => "--cdna"
    case Gtf => "--gtf"
    case GtfChr => "--gtf_chr"
  }

  /** Whether the file's sequence names carry "chr", as the usage text documents it. */
  predicate ChrFile(f: RefFile)
  {
    f == GtfChr
  }

  /** The option each flag selects. */
  function FileOfFlag(flag: string): (f: Option<RefFile>)
    ensures forall g :: f == Some(g) <==> FlagOf(g) == flag
  {
    if flag == "--cdna" then Some(Cdna)
    else if flag == "--gtf" then Some(Gtf)
    else if flag == "--gtf_chr" then Some(GtfChr)
    else None
  }

  const NON_CHR_HINT_HEAD := "\nYou can download a non-chr format with: bcbio_doctor.py -d "
  const CHR_HINT_HEAD := "You can download a chr format with: bcbio_doctor.py -d "
  const CHR_HINT_TAIL := " \n\n" + "You can also run the following command to edit the annotation, although this is less reliable: \n\t"
    + "awk 'OFS=\"\\t\" {if (NR > 5) $1=\"chr\"$1; print}' input_name.gtf > output_name.gtf"

  /** The option the printed non-"chr" hint names. */
  const NON_CHR_FLAG_AS_WRITTEN := "--gtf_chr"

  /**
   * The text of each hint as printed: the non-"chr" hint names
   * `NON_CHR_FLAG_AS_WRITTEN`, the "chr" hint the option that fetches the
   * "chr" file and an `awk` command that adds the prefix.
   */
  function HintText(h: Hint): string
  {
    match h
    case NonChrDownload => NON_CHR_HINT_HEAD + NON_CHR_FLAG_AS_WRITTEN + "\n"
    case ChrDownload => CHR_HINT_HEAD + FlagOf(GtfChr) + CHR_HINT_TAIL
  }

  /** The option named by the printed non-"chr" hint fetches the "chr" file. */
  lemma NonChrHintAsWrittenFetchesChr()
    ensures var h := HintText(NonChrDownload);
      NON_CHR_HINT_HEAD <= h && h[|h| - 1] == '\n' &&
      var flag := h[|NON_CHR_HINT_HEAD|..|h| - 1];
      FileOfFlag(flag).Some? && ChrFile(FileOfFlag(flag).value)
  {
    var h := HintText(NonChrDownload);
    assert h[|NON_CHR_HINT_HEAD|..|h| - 1] == NON_CHR_FLAG_AS_WRITTEN;
  }

  /** The non-"chr" hint as intended: it names the option of the plain annotation. */
  function CorrectedNonChrHint(): string
  {
    NON_CHR_HINT_HEAD + FlagOf(Gtf) + "\n"
  }

  /** The option named by the corrected non-"chr" hint fetches a file without "chr". */
  lemma NonChrHintFetchesNonChr()
    ensures var h := CorrectedNonChrHint();
      NON_CHR_HINT_HEAD <= h && h[|h| - 1] == '\n' &&
      var flag := h[|NON_CHR_HINT_HEAD|..|h| - 1];
      FileOfFlag(flag).Some? && !ChrFile(FileOfFlag(flag).value)
  {
    var h := CorrectedNonChrHint();
    assert h[|NON_CHR_HINT_HEAD|..|h| - 1] == FlagOf(Gtf);
  }

  /** The option named by the "chr" hint fetches the "chr" file. */
  lemma ChrHintFetchesChr()
    ensures var h := HintText(ChrDownload);
      CHR_HINT_HEAD <= h &&
      var flag := h[|CHR_HINT_HEAD|..|CHR_HINT_HEAD| + |FlagOf(GtfChr)|];
      FileOfFlag(flag).Some? && ChrFile(FileOfFlag(flag).value)
  {
    var h := HintText(ChrDownload);
    assert h[|CHR_HINT_HEAD|..|CHR_HINT_HEAD| + |FlagOf(GtfChr)|] == FlagOf(GtfChr);
  }
}
