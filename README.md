# bcbio helper: the argument, run-descriptor and doctor logic in Dafny

This project models the small deterministic parts of a Python helper around
the bcbio-nextgen RNA-seq pipeline, and proves what they promise.

- **app_helper.py (`AppHelper`).** The GUI run window is a class with its
  four path fields, its seven option fields and its console buffer.
  - `store_arguments` builds the command vector for bcbio_helper.py: 19
    entries in a fixed order, with a default for every unset option.
  - The save button is a chain of seven compare-then-assign steps. A field
    is overwritten only when its line edit differs, and each overwrite
    appends one "Updated … to:" line to the console.
- **bcbio_helper.py (`BcbioHelper`).** The run descriptor.
  - `get_args` builds the nested template record with its defaults. The
    template is dumped as a YAML tree with `details` before `upload`, and a
    reader proves the dump loses nothing.
  - `create_csv` builds the sample manifest from the forward reads
    (`*1.fq.gz`), and raises when there are none.
  - The run-name rule forces a `.csv` name.
  - The start command and the work directory come from the run-name stem.
  - The fixed template of interactive mode.
  - The command-line flow and the interactive flow.
- **func_doctor.py (`FuncDoctor`).** The diagnosis logic.
  - `check_PATH` classifies the distinct `$PATH` entries. It sets the three
    requirement flags and derives the installation root.
  - `main -d` chooses which reference files to download. `download_genes`
    maps each one to its fixed URL and to a destination in the download
    directory.
  - The first-line checks `check_gene_names` and `check_gene_annotation`,
    and the download hints printed after the annotation check.

Three support modules hold what the source takes from Python:
- `Wrappers` holds `Option` and `Result`.
- `Python` holds truthiness, `str.split` / `str.join`, substring tests, list
  comprehensions as `Filter`, and `Carried`. `Carried` is the value a loop
  variable still holds after a loop in which not every iteration assigns it.
- `Paths` holds the part of `pathlib` that is used: `str(Path(s))`,
  `Path(d) / name`, `.name` and `.parent`.

Effects become inputs or outputs:
- The environment's `$PATH` is a string parameter.
- The glob results are lists of entries, and the files are lists of lines.
- A line keeps its terminator, and is never empty.
- The iteration order of a Python `set` is whatever order `Enumerate` picks.
- What is printed or written is returned: strings, rows, YAML trees and
  download requests.
- A Python exception is the `Err` case of a `Result`.

## Model

| member | source | states |
|---|---|---|
| `AppHelper.ApplicationWindow.constructor` | app_helper.py:58-74 | A new window has all four paths and all seven options unset (None), and an empty console. |
| `AppHelper.ApplicationWindow.StoreArguments` | app_helper.py:114-136 | The vector has exactly 19 entries: "python3", then "bcbio_helper.py", then data, fasta and gtf in slots 2-4, and the out path in slot 18. The four paths are copied unchanged and get no default. Being a function that only reads the window, it changes no field. |
| `AppHelper.StoreArgumentsOption` | app_helper.py:120-132 | Each option's value slot follows its own flag (`--analysis` … `--cores`); the run name is positional. If the stored option is a non-empty string, the slot holds exactly that string. If it is None or "", the slot holds its default: RNA-seq, hg38, hisat2, polya, unstranded, 12, or unnamed. |
| `AppHelper.StoreArgumentsComplete` | app_helper.py:114-134 | Every one of the 19 slots holds a string if and only if all four paths were chosen. |
| `AppHelper.ApplicationWindow.SaveField` | app_helper.py:249-255 | One compare-and-update step. Afterwards the field holds the line-edit text. The console gains one "Updated … to: <text>" line if the old value differed, and nothing otherwise. The paths are unchanged. |
| `AppHelper.ApplicationWindow.OnPushSave` | app_helper.py:247-303 | After a save, every option field equals its line-edit text. The console equals the old console followed by the lines of the seven comparisons, made in save order. The paths are unchanged. |
| `AppHelper.Changed` | app_helper.py:249-303 | A field is listed as changed exactly when it is compared and its stored value differs from its line edit. |
| `AppHelper.NoticesFollowChanged` | app_helper.py:249-303 | A save appends exactly one line per changed field, in comparison order. Each line is that field's notice with its new text. Unchanged fields append no line. |
| `AppHelper.NoticesEmptyIff` | app_helper.py:249-303 | Comparing a list of fields appends nothing exactly when every one of them already holds its text. |
| `AppHelper.NoticesInSaveOrder` | app_helper.py:249-303 | The lines of a save are those of analysis, genome, adapter, strandedness, aligner, cores and run name, in that order. |
| `AppHelper.SaveOrderIsComplete` | app_helper.py:249-303 | Every option field is compared by the save. |
| `AppHelper.QuietSaveIffSaved` | app_helper.py:249-303 | A save appends nothing if and only if the fields already equal the line edits. |
| `AppHelper.FirstSaveReportsEveryField` | app_helper.py:249-303 | On a fresh window every option is None, so the first save reports every compared field, even an empty text. |
| `AppHelper.SaveTwice` | app_helper.py:247-303 | Saving twice with unchanged line edits leaves the same fields and console as saving once: the second press appends nothing. |
| `Python.Split` | func_doctor.py:46 | `str.split` returns at least one part and no part contains the separator. |
| `Python.JoinSplit` | func_doctor.py:46 | Joining the parts of a split with the separator gives the original string back. |
| `Python.SplitJoin` | func_doctor.py:46 | Splitting a join of separator-free parts gives the parts back. |
| `Python.FirstField` | bcbio_helper.py:65 | `s.split(sep)[0]` is a separator-free prefix of `s` that is either all of `s` or ends just before a separator. |
| `Python.FirstFieldUnique` | bcbio_helper.py:65 | No other prefix has that property. |
| `Python.LastField` | bcbio_helper.py:218 | `s.split(sep)[-1]` is a separator-free suffix of `s` that is either all of `s` or starts just after a separator. |
| `Python.Filter` | bcbio_helper.py:53 | A list comprehension keeps exactly the elements that satisfy its condition, and is never longer than its list. |
| `Python.FilterAppend` | bcbio_helper.py:53 | The comprehension of the empty list is empty. The comprehension of a list with one more element is the old result, followed by that element exactly when it satisfies the condition. So the kept elements stay in their order. |
| `Python.FilterMultiset` | bcbio_helper.py:53 | A value that satisfies the condition occurs in the result as often as in the list. A value that does not satisfy it does not occur at all. |
| `Python.CarriedNoneIff` | func_doctor.py:205-209 | A loop variable that only some iterations assign stays unbound exactly when no iteration assigned it. |
| `Python.CarriedIsLatest` | func_doctor.py:235-242 | A bound loop variable holds the latest assigned value: no later iteration assigned one. |
| `Paths.Normalize` | func_doctor.py:57 | `str(Path(s))` is never empty, ends in '/' only when it is the root, is "." for "", and otherwise is `s` without its trailing separators. |
| `Paths.JoinAbsolute` | bcbio_helper.py:58 | `Path(d) / name` with an absolute `name` is `str(Path(name))`: the directory is dropped. |
| `Paths.JoinIsChild` | func_doctor.py:156 | `Path(d) / name`, for one non-empty component: the result is normalised, its parent is `str(Path(d))`, and its name is that component. |
| `Paths.ParentOfChild` | func_doctor.py:64 | A path with one more component appended has the shorter path as its parent. |
| `Paths.ParentOfComponent` | bcbio_helper.py:283 | A single component, with or without a trailing '/', has "." as its parent. |
| `Paths.NormalizeDropsOneSeparator` | bcbio_helper.py:283 | Appending one '/' to a path that does not end in '/' changes neither its normalised form nor its parent. |
| `BcbioHelper.GetArgs` | bcbio_helper.py:88-109 | Each falsy option gets its default (RNA-seq, hg38, hisat2, ["nextera", "polya"], unstranded), and each given option is kept as it is. There is exactly one details entry, whose fasta and gtf are the input paths unchanged. The upload dir is the out path followed by "final/", by plain concatenation. |
| `BcbioHelper.TemplateDoc` | bcbio_helper.py:129-131 | The dumped template is a mapping whose keys are "details" then "upload", with no key sorting. |
| `BcbioHelper.TemplateRoundTrip` | bcbio_helper.py:131 | Reading the dumped tree back gives the template itself. |
| `BcbioHelper.ForwardReads` | bcbio_helper.py:53 | An entry is an item exactly when it is a regular file whose name ends in "1.fq.gz". |
| `BcbioHelper.NoForwardReadIff` | bcbio_helper.py:53-56 | The item list is empty exactly when no entry is a forward read. |
| `BcbioHelper.Description` | bcbio_helper.py:65 | A description is the file name up to its first '_', or the whole name when there is none. |
| `BcbioHelper.CreateCsv` | bcbio_helper.py:53-70 | It raises ValueError with the source's message exactly when no forward read is found. Otherwise the manifest is written to `outpath / run_name`. It has the header row, then one row (path, description) per item, in glob order. |
| `BcbioHelper.CsvFieldIff` | bcbio_helper.py:218 | A name's last '.'-field is "csv" exactly when the name is "csv" or ends in ".csv". |
| `BcbioHelper.NormaliseRunName` | bcbio_helper.py:216-220 | A name is kept exactly when it is "csv" or ends in ".csv"; any other name gets ".csv" appended. The result always is "csv" or ends in ".csv". |
| `BcbioHelper.NormaliseRunNameIdempotent` | bcbio_helper.py:266 | Normalising twice is normalising once. |
| `BcbioHelper.RunNamePathIsName` | bcbio_helper.py:216-220 | The model's `Paths.Normalize` of a normalised run name is that name itself, because the name ends in "v" and not in '/'. |
| `BcbioHelper.Stem` | bcbio_helper.py:188 | The stem is the run name up to its first '.', or the whole name. |
| `BcbioHelper.ConfigPath` | bcbio_helper.py:192 | The config path is "../config/" + stem + ".yaml". |
| `BcbioHelper.ConfigPathOfPlainName` | bcbio_helper.py:192 | For a run name without '.', the stem of its normalised name is the name itself, so the config file is named after the run. |
| `BcbioHelper.WorkDir` | bcbio_helper.py:188 | The work directory is the child "work" of `outpath / stem`. |
| `BcbioHelper.StartCommand` | bcbio_helper.py:189-196 | The command is exactly bcbio_nextgen.py, the config path of the stem, "-n", then the cores. |
| `BcbioHelper.CoresArg` | bcbio_helper.py:214 | A given `--cores` value is kept; a missing or empty one becomes "12". |
| `BcbioHelper.Launch` | bcbio_helper.py:227-231 | Creating the manifest, the template and the start command fails exactly when `create_csv` raises, and then nothing after it happens. On success the template file is `outpath / "template.yaml"`, the tree written is the dump of the template and reads back to it, and the work directory is `outpath / stem / "work"`. |
| `BcbioHelper.RunHelper` | bcbio_helper.py:213-231 | The command-line flow fails exactly when no forward read exists. On success: the manifest is `outpath / run_name` for the normalised run name; the template file is `outpath / "template.yaml"`; the tree written is the dump of `get_args` and reads back to it; the work directory is that of the normalised run name; the command uses the normalised run name and the defaulted cores. |
| `BcbioHelper.OutPathIsNormalised` | bcbio_helper.py:222 | Joining onto `str(Path(outpath))` or onto the path as typed gives the same manifest, template and work paths. |
| `BcbioHelper.InteractiveTemplateAsWritten` | bcbio_helper.py:269-284 | Interactive mode builds one details entry, with the fixed values RNA-seq, hg38, hisat2, ["polya"] and unstranded, and the normalised fasta and gtf paths. Its upload dir starts with `str(Path(out))`, ends in "final/", and is exactly six characters longer, so no separator comes between them. |
| `BcbioHelper.InteractiveUploadDirIsSibling` | bcbio_helper.py:283 | For an out path of one component, such as "seq" or "seq/", that upload dir ("seqfinal/") has "." as its parent. It is a sibling of the out path, not a child. |
| `BcbioHelper.InteractiveTemplate` | bcbio_helper.py:269-284 | The corrected interactive template has the fixed values RNA-seq, hg38, hisat2, ["polya"] and unstranded, and the normalised fasta and gtf paths. Its upload dir ends in '/', is named "final", and is a child of the out path. |
| `BcbioHelper.InteractiveTemplateFixesOnlyUpload` | bcbio_helper.py:283 | The corrected template equals the one the source builds in everything but the upload dir. |
| `BcbioHelper.InteractiveDiffersOnlyInAdapters` | bcbio_helper.py:269-283 | With no options given, the two modes agree on analysis, genome, aligner and strandedness. They differ on the adapters: ["polya"] in interactive mode, ["nextera", "polya"] on the command line. |
| `BcbioHelper.RunInteractive` | bcbio_helper.py:257-301 | The interactive flow fails exactly when no forward read exists. On success: the manifest is `outpath / run_name` for the normalised run name; the template file is `outpath / "template.yaml"`; the tree written is the dump of the template as the source builds it, upload dir included, and reads back to it; the work directory is that of the normalised run name; the cores are passed as typed, with no default. |
| `BcbioHelper.RunInteractiveCorrected` | bcbio_helper.py:257-301 | The same flow with the corrected template: the same manifest, template file, work directory and command, and the upload dir written is a child of the out path. |
| `FuncDoctor.Matching` | func_doctor.py:54-56 | An entry is matched exactly when it contains "/bcbio/" or ends in "/bcbio". |
| `FuncDoctor.Classify` | func_doctor.py:61-71 | A path is tools/bin, anaconda/bin or bcbio exactly when it ends in that suffix. The three suffixes exclude each other, so each path sets at most one flag. |
| `FuncDoctor.InstallRoot` | func_doctor.py:64 | The root, followed by "/tools/bin", is the path, and the root ends in "/bcbio". |
| `FuncDoctor.InstallRootIsGrandparent` | func_doctor.py:63-65 | Dropping the last two parts is taking the parent twice. |
| `FuncDoctor.ClassifiedIsMatched` | func_doctor.py:54-71 | Every entry that the loop would classify passes one of the two prefilters, so the prefilters lose no entry. |
| `FuncDoctor.RootReading` | func_doctor.py:63-64 | A path assigns the install root exactly when it is a tools/bin path. What it assigns is then that path without "/tools/bin". |
| `FuncDoctor.Enumerate` | func_doctor.py:46 | Iterating over the set visits each distinct entry exactly once. |
| `FuncDoctor.SeenIffPresent` | func_doctor.py:54-71 | Looking at the matched paths finds a kind exactly when some `$PATH` entry is of that kind. |
| `FuncDoctor.ScanPaths` | func_doctor.py:59-71 | At the end of the loop each flag is set exactly when some path of its kind was visited. The install root is the one assigned by the last tools/bin path. |
| `FuncDoctor.CheckPath` | func_doctor.py:46-91 | The report lists the three requirements in order. Only tools/bin is critical. Each is marked found exactly when some `$PATH` entry is of its kind. The return raises on the unbound `bcbio_path` exactly when no tools/bin entry exists. |
| `FuncDoctor.FileNameIsComponent` | func_doctor.py:138-151 | Each download name is a single non-empty path component. |
| `FuncDoctor.FileNameIsUrlTail` | func_doctor.py:138-151 | Each URL ends in "/" followed by its download name. |
| `FuncDoctor.FileNamesDiffer` | func_doctor.py:138-151 | Different files have different names and different keys. |
| `FuncDoctor.SelectDownloads` | func_doctor.py:265-269 | The list holds cdna, gtf and gtf_chr, each exactly when its option is set, in that order. |
| `FuncDoctor.RequestIsInDirectory` | func_doctor.py:153-156 | A download's destination is a child of the download directory. Its name is the file name, which is also the last component of the URL. |
| `FuncDoctor.DownloadGenes` | func_doctor.py:153-156 | There is one request per listed file, in list order, each with that file's fixed URL, destination and name. |
| `FuncDoctor.DownloadMain` | func_doctor.py:263-275 | It prints "No files specified for download" exactly when no option is set, and otherwise "Running download script...". Each file's request is made exactly when its option is set, and nothing else is requested. No two downloads share a destination. |
| `FuncDoctor.RequestsIffSelected` | func_doctor.py:153-156 | A file's request is made exactly when the file is listed, and every request is some file's request. |
| `FuncDoctor.NameMessageReportsVersion` | func_doctor.py:210-218 | The line starts with the file name. It names the XXXXXXXX.XX format exactly when the gene name contains '.', and XXXXXXXX otherwise. |
| `FuncDoctor.NameMessages` | func_doctor.py:204-218 | There is one line per FASTA file. |
| `FuncDoctor.NameMessagesAt` | func_doctor.py:205-218 | A file's line comes from the gene name in effect after reading it. For a non-empty file, that is the first space-separated token of its own first line. |
| `FuncDoctor.CheckGeneNames` | func_doctor.py:204-218 | It raises on the unbound `gene_name` exactly when the first file is empty. Otherwise it prints one line per file, as described by `NameMessages`. |
| `FuncDoctor.FirstDataLineIsFirst` | func_doctor.py:237-242 | There is no data line exactly when every line starts with '#'. A data line is one of the lines and does not start with '#'. |
| `FuncDoctor.FirstDataLineAt` | func_doctor.py:237-242 | The first line that does not start with '#' is the data line. |
| `FuncDoctor.ReadAnnotation` | func_doctor.py:236-242 | The scan of one file sets the variable to the first tab field of its first non-'#' line. If there is no such line, the variable keeps its old value. |
| `FuncDoctor.AnnotationMessageReportsChr` | func_doctor.py:243-246 | The line starts with the file name. It says "chrX" exactly when the field contains "chr", and "X" otherwise. |
| `FuncDoctor.AnnotationMessages` | func_doctor.py:233-246 | There is one line per GTF file. |
| `FuncDoctor.AnnotationMessagesAt` | func_doctor.py:235-246 | A file's line comes from the field in effect after reading it. For a file with a data line, that is the first tab field of that line. |
| `FuncDoctor.CheckGeneAnnotation` | func_doctor.py:233-254 | It raises on the unbound `gene_annotation` exactly when the first file has no data line. Otherwise it prints one line per file, then the non-chr hint and the chr hint. |
| `FuncDoctor.FileOfFlag` | func_doctor.py:10-12 | Each download option selects exactly the file it documents. |
| `FuncDoctor.NonChrHintAsWrittenFetchesChr` | func_doctor.py:248 | The option named by the non-chr hint as printed (`HintText`) fetches the chr-annotated file. |
| `FuncDoctor.NonChrHintFetchesNonChr` | func_doctor.py:248 | The option named by the corrected non-chr hint (`CorrectedNonChrHint`) fetches a file without chr. |
| `FuncDoctor.ChrHintFetchesChr` | func_doctor.py:250-254 | The option named by the chr hint fetches the chr-annotated file. |

## Left out

- **GUI plumbing** is not modelled. This covers the Qt widgets, signals, the file dialogs of the four browse handlers (app_helper.py:179-245), `Stream`, and the console's text cursor. Inserting text into the console is modelled as appending one string to a sequence.
- **Processes** are not modelled: `Worker`, QThread, the process started by `on_push_run` (app_helper.py:141-173), and `progress_fn`. They involve concurrency and operating-system processes.
- **`create_run_yaml`** (bcbio_helper.py:139-170) runs an external program and changes directory.
- **Directory changes and process runs:** the `os.chdir` calls and the `subprocess.run` of `start_bcbio` are left out. The model returns the work directory and the command instead.
- **Directory creation:** creating the out directory in `main` and `main_interactive` is left out.
- **Prints** are left out: create_csv's message printed on success (bcbio_helper.py:68), the YAML echo of `create_template`, and the parameter summary of `main_interactive`.
- **Byte formats:** the bytes `csv.writer` and `yaml.dump` produce (quote character, quoting rules, YAML syntax) are left out. The model uses rows and a YAML tree with ordered keys.
- **Interactive input:** docopt and the `input()` loop of `main_interactive` are left out. The model starts from the values they yield, and models one confirmed pass of that loop.
- **The filesystem:** real globbing, `is_file` and file reading are inputs. The glob order is the order of the input list.
- **`Paths.Normalize`** only drops trailing separators and maps "" to ".". pathlib also collapses repeated separators and drops "." components; paths that need those steps are not modelled faithfully.
- RunNamePathIsName: holds for the model's `Paths.Normalize`, not for every pathlib normalisation. pathlib also drops "." components and collapses repeated separators, so `Path("./run.csv")` is "run.csv", while the model keeps "./run.csv". Every path the flows build from such a run name inherits this gap.
- **`Paths.Name`** is the text after the last '/'. That equals pathlib's `.name` only for normalised paths, which is how the model uses it.
- **`check_genome_paths`** (func_doctor.py:94-121) globs the installation's directories after a change of directory, so it depends on the filesystem.
- **`download_url`** (func_doctor.py:159-189) is left out (HTTP, a progress bar, file writing). `download_genes` returns the calls it would make.
- **The diagnose branch of `main`** (func_doctor.py:277-290) is left out: the separator lines it prints, and the chaining of `check_PATH` into `check_genome_paths`.
- **The `$PATH` report printing** (func_doctor.py:73-90) is left out; the report is returned as three requirement rows.
- **`check_PATH`'s error:** the unbound `bcbio_path` (func_doctor.py:59 binds a different name) is modelled as the raise the source makes. No corrected variant of `check_PATH` is modelled.
- **Download keys:** a `KeyError` from `download_info` cannot happen, because the keys come from the fixed three-element list. The file kinds are a datatype.
- **Hints:** `CheckGeneAnnotation` returns the two hints as values of the `Hint` datatype, and `FuncDoctor.HintText` gives their text as printed. The intended non-chr hint is `FuncDoctor.CorrectedNonChrHint`.

## Findings

| source | as written | input that shows it | evidently intended | confidence | as-written member | corrected member |
|---|---|---|---|---|---|---|
| bcbio_helper.py:283 | In interactive mode the upload dir is "final/" pasted onto `str(Path(out))`. `Path` has already dropped any trailing '/', so the two run together. | out path "seq/" (or "seq") gives "seqfinal/", a sibling of "seq" | "seq/final/", a directory inside the output directory, which is what the command line gives for the documented "seq/" | not executed | `BcbioHelper.InteractiveUploadDirIsSibling` | `BcbioHelper.InteractiveTemplate` |
| func_doctor.py:248 | The hint for downloading a file without "chr" names the `--gtf_chr` option. | any run of the annotation check prints it | `--gtf`, which the usage text (func_doctor.py:10) documents as the gtf file with no CHR annotation | not executed | `FuncDoctor.NonChrHintAsWrittenFetchesChr` | `FuncDoctor.NonChrHintFetchesNonChr` |
