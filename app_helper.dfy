/**
 * The run window of the GUI (app_helper.py): the path and option fields it
 * stores, the argument vector it hands to bcbio_helper.py, and the rule by
 * which the save button copies the option line edits into those fields,
 * reporting each change on the console.
 */
module AppHelper {
  import opened Wrappers
  import opened Python

  /** The seven option fields of the window. */
  datatype OptionField = Analysis | Genome | Adapter | Strandedness | Aligner | Cores | RunName

  /** The order in which the save button compares and reports the fields. */
  const SAVE_ORDER: seq<OptionField> := [Analysis, Genome, Adapter, Strandedness, Aligner, Cores, RunName]

  /** The value the argument vector uses when a field is None or empty. */
  function Default(f: OptionField): string
  {
    match f
    case Analysis => "RNA-seq"
    case Genome => "hg38"
    case Adapter => "polya"
    case Strandedness => "unstranded"
    case Aligner => "hisat2"
    case Cores => "12"
    case RunName => "unnamed"
  }

  /** Where the field's value sits in the argument vector. */
  function ValueSlot(f: OptionField): nat
  {
    match f
    case Analysis => 6
    case Genome => 8
    case Aligner => 10
    case Adapter => 12
    case Strandedness => 14
    case Cores => 16
    case RunName => 17
  }

  /** The flag that precedes the field's value; the run name is positional. */
  function Flag(f: OptionField): string
    requires f != RunName
  {
    match f
    case Analysis => "--analysis"
    case Genome => "--genome"
    case Aligner => "--aligner"
    case Adapter => "--adapter"
    case Strandedness => "--strandedness"
    case Cores => "--cores"
  }

  const ANALYSIS_NOTICE := "Updated Analysis to: "
  const GENOME_NOTICE := "Updated Genome to: "
  const ADAPTER_NOTICE := "Updated adapter to: "
  const STRANDEDNESS_NOTICE := "Updated Strandedness to: "
  const ALIGNER_NOTICE := "Updated Aligner to: "
  const CORES_NOTICE := "Updated Core Count to:"
  const RUN_NAME_NOTICE := "Updated Run Name to: "

  /** The fixed text of a notification line, before the new value. */
  function NoticePrefix(f: OptionField): string
  {
    match f
    case Analysis => ANALYSIS_NOTICE
    case Genome => GENOME_NOTICE
    case Adapter => ADAPTER_NOTICE
    case Strandedness => STRANDEDNESS_NOTICE
    case Aligner => ALIGNER_NOTICE
    case Cores => CORES_NOTICE
    case RunName => RUN_NAME_NOTICE
  }

  function NoticeLine(f: OptionField, text: string): string
  {
    NoticePrefix(f) + text + "\n"
  }

  /** The texts of the seven option line edits when save is pressed. */
  datatype LineEdits = LineEdits(
    analysis: string, genome: string, adapter: string, strandedness: string,
    aligner: string, cores: string, runName: string)
  {
    function Text(f: OptionField): string
    {
      match f
      case Analysis => analysis
      case Genome => genome
      case Adapter => adapter
      case Strandedness => strandedness
      case Aligner => aligner
      case Cores => cores
      case RunName => runName
    }
  }

  /** A snapshot of the seven option fields; None until a save stores a text. */
  datatype OptionValues = OptionValues(
    analysis: Option<string>, genome: Option<string>, adapter: Option<string>,
    strandedness: Option<string>, aligner: Option<string>, cores: Option<string>,
    runName: Option<string>)
  {
    function Get(f: OptionField): Option<string>
    {
      match f
      case Analysis => analysis
      case Genome => genome
      case Adapter => adapter
      case Strandedness => strandedness
      case Aligner => aligner
      case Cores => cores
      case RunName => runName
    }

    /** The snapshot with one field replaced. */
    function Set(f: OptionField, v: Option<string>): (r: OptionValues)
      ensures forall g :: r.Get(g) == if g == f then v else Get(g)
    {
      match f
      case Analysis => this.(analysis := v)
      case Genome => this.(genome := v)
      case Adapter => this.(adapter := v)
      case Strandedness => this.(strandedness := v)
      case Aligner => this.(aligner := v)
      case Cores => this.(cores := v)
      case RunName => this.(runName := v)
    }
  }

  const UNSET := OptionValues(None, None, None, None, None, None, None)

  /** The fields after a save: every one holds its line-edit text. */
  function Saved(edits: LineEdits): (v: OptionValues)
    ensures forall f :: v.Get(f) == Some(edits.Text(f))
  {
    OptionValues(Some(edits.analysis), Some(edits.genome), Some(edits.adapter),
      Some(edits.strandedness), Some(edits.aligner), Some(edits.cores), Some(edits.runName))
  }

  /** The line one comparison appends: one line if the stored value differs, else none. */
  function Notice(before: OptionValues, f: OptionField, text: string): seq<string>
  {
    if before.Get(f) != Some(text) then [NoticeLine(f, text)] else []
  }

  /** The lines the save button appends when it compares `fields` in turn. */
  function Notices(before: OptionValues, edits: LineEdits, fields: seq<OptionField>): seq<string>
    decreases |fields|
  {
    if fields == [] then [] else Notice(before, fields[0], edits.Text(fields[0])) + Notices(before, edits, fields[1..])
  }

  /** The fields of `fields` whose stored value differs from its line edit, in order. */
  function Changed(before: OptionValues, edits: LineEdits, fields: seq<OptionField>): (r: seq<OptionField>)
    ensures forall f :: f in r <==> f in fields && before.Get(f) != Some(edits.Text(f))
  {
    Filter(fields, (f: OptionField) => before.Get(f) != Some(edits.Text(f)))
  }

  /** The save appends exactly one line per changed field, in comparison order, and none for the rest. */
  lemma {:induction false} NoticesFollowChanged(before: OptionValues, edits: LineEdits, fields: seq<OptionField>)
    ensures var lines := Notices(before, edits, fields); var changed := Changed(before, edits, fields);
      |lines| == |changed| &&
      forall i :: 0 <= i < |lines| ==> lines[i] == NoticeLine(changed[i], edits.Text(changed[i]))
    decreases |fields|
  {
    if fields != [] {
      var f, rest := fields[0], fields[1..];
      NoticesFollowChanged(before, edits, rest);
      var lines, changed := Notices(before, edits, fields), Changed(before, edits, fields);
      var lines', changed' := Notices(before, edits, rest), Changed(before, edits, rest);
      if before.Get(f) != Some(edits.Text(f)) {
        assert lines == [NoticeLine(f, edits.Text(f))] + lines';
        assert changed == [f] + changed';
      } else {
        assert lines == lines' && changed == changed';
      }
    }
  }

  /** Nothing is appended exactly when every compared field already holds its text. */
  lemma {:induction false} NoticesEmptyIff(before: OptionValues, edits: LineEdits, fields: seq<OptionField>)
    ensures Notices(before, edits, fields) == [] <==>
      forall f :: f in fields ==> before.Get(f) == Some(edits.Text(f))
    decreases |fields|
  {
    if fields != [] {
      NoticesEmptyIff(before, edits, fields[1..]);
      assert forall f :: f in fields <==> f == fields[0] || f in fields[1..];
    }
  }

  lemma NoticesCons(before: OptionValues, edits: LineEdits, f: OptionField, rest: seq<OptionField>)
    ensures Notices(before, edits, [f] + rest) == Notice(before, f, edits.Text(f)) + Notices(before, edits, rest)
  {
    assert ([f] + rest)[1..] == rest;
  }

  /** The save's lines are the seven comparisons in the order of the source. */
  lemma NoticesInSaveOrder(b: OptionValues, e: LineEdits)
    ensures Notices(b, e, SAVE_ORDER) ==
      Notice(b, Analysis, e.analysis) + (Notice(b, Genome, e.genome) + (Notice(b, Adapter, e.adapter) +
      (Notice(b, Strandedness, e.strandedness) + (Notice(b, Aligner, e.aligner) +
      (Notice(b, Cores, e.cores) + Notice(b, RunName, e.runName))))))
  {
    var t6: seq<OptionField> := [RunName];
    NoticesCons(b, e, RunName, []);
    var n6 := Notice(b, RunName, e.runName);
    assert Notices(b, e, t6) == n6;
    var t5 := [Cores] + t6;
    NoticesCons(b, e, Cores, t6);
    var n5 := Notice(b, Cores, e.cores) + n6;
    assert Notices(b, e, t5) == n5;
    var t4 := [Aligner] + t5;
    NoticesCons(b, e, Aligner, t5);
    var n4 := Notice(b, Aligner, e.aligner) + n5;
    assert Notices(b, e, t4) == n4;
    var t3 := [Strandedness] + t4;
    NoticesCons(b, e, Strandedness, t4);
    var n3 := Notice(b, Strandedness, e.strandedness) + n4;
    assert Notices(b, e, t3) == n3;
    var t2 := [Adapter] + t3;
    NoticesCons(b, e, Adapter, t3);
    var n2 := Notice(b, Adapter, e.adapter) + n3;
    assert Notices(b, e, t2) == n2;
    var t1 := [Genome] + t2;
    NoticesCons(b, e, Genome, t2);
    var n1 := Notice(b, Genome, e.genome) + n2;
    assert Notices(b, e, t1) == n1;
    NoticesCons(b, e, Analysis, t1);
    assert [Analysis] + t1 == SAVE_ORDER;
  }

  /** Regrouping one console append, stated once for the steps of `OnPushSave`. */
  lemma AppendAssoc(a: seq<string>, b: seq<string>, c: seq<string>)
    ensures (a + b) + c == a + (b + c)
  {
  }

  /** Every field is compared by the save. */
  lemma SaveOrderIsComplete(f: OptionField)
    ensures f in SAVE_ORDER
  {
    match f
    case Analysis => assert SAVE_ORDER[0] == f;
    case Genome => assert SAVE_ORDER[1] == f;
    case Adapter => assert SAVE_ORDER[2] == f;
    case Strandedness => assert SAVE_ORDER[3] == f;
    case Aligner => assert SAVE_ORDER[4] == f;
    case Cores => assert SAVE_ORDER[5] == f;
    case RunName => assert SAVE_ORDER[6] == f;
  }

  /** A save appends nothing exactly when the fields already equal the line edits; so saving twice is saving once. */
  lemma QuietSaveIffSaved(before: OptionValues, edits: LineEdits)
    ensures Notices(before, edits, SAVE_ORDER) == [] <==> before == Saved(edits)
  {
    NoticesEmptyIff(before, edits, SAVE_ORDER);
    forall f: OptionField
      ensures f in SAVE_ORDER
    {
      SaveOrderIsComplete(f);
    }
    if forall f :: before.Get(f) == Some(edits.Text(f)) {
      assert before.analysis == Some(edits.analysis) && before.genome == Some(edits.genome);
      assert before.adapter == Some(edits.adapter) && before.strandedness == Some(edits.strandedness);
      assert before.aligner == Some(edits.aligner) && before.cores == Some(edits.cores);
      assert before.runName == Some(edits.runName);
    }
  }

  /** On a fresh window every field is None, so the first save reports all seven, even empty texts. */
  lemma {:induction false} FirstSaveReportsEveryField(edits: LineEdits, fields: seq<OptionField>)
    ensures |Notices(UNSET, edits, fields)| == |fields|
    decreases |fields|
  {
    if fields != [] {
      FirstSaveReportsEveryField(edits, fields[1..]);
    }
  }

  class ApplicationWindow {
    var dataPath: Option<string>
    var gtfPath: Option<string>
    var fastaPath: Option<string>
    var outPath: Option<string>

    var analysis: Option<string>
    var genome: Option<string>
    var adapter: Option<string>
    var strandedness: Option<string>
    var aligner: Option<string>
    var cores: Option<string>
    var runName: Option<string>

    /** The text the window has inserted into its console, one entry per insertion. */
    var console: seq<string>

    constructor ()
      ensures dataPath == None && gtfPath == None && fastaPath == None && outPath == None
      ensures Values() == UNSET
      ensures console == []
    {
      dataPath, gtfPath, fastaPath, outPath := None, None, None, None;
      analysis, genome, adapter, strandedness := None, None, None, None;
      aligner, cores, runName := None, None, None;
      console := [];
    }

    function Values(): OptionValues
      reads this
    {
      OptionValues(analysis, genome, adapter, strandedness, aligner, cores, runName)
    }

    /**
     * The command line for bcbio_helper.py. A path that was never chosen
     * stays None in the vector; an option that is None or empty is replaced
     * by its default. Being a function, it reads the window and changes nothing.
     */
    function StoreArguments(): (args: seq<Option<string>>)
      reads this
      ensures |args| == 19
      ensures args[0] == Some("python3") && args[1] == Some("bcbio_helper.py")
      ensures args[2] == dataPath && args[3] == fastaPath && args[4] == gtfPath && args[18] == outPath
    {
      [
        Some("python3"),
        Some("bcbio_helper.py"),
        dataPath,
        fastaPath,
        gtfPath,
        Some("--analysis"),
        Some(OrDefault(analysis, "RNA-seq")),
        Some("--genome"),
        Some(OrDefault(genome, "hg38")),
        Some("--aligner"),
        Some(OrDefault(aligner, "hisat2")),
        Some("--adapter"),
        Some(OrDefault(adapter, "polya")),
        Some("--strandedness"),
        Some(OrDefault(strandedness, "unstranded")),
        Some("--cores"),
        Some(OrDefault(cores, "12")),
        Some(OrDefault(runName, "unnamed")),
        outPath
      ]
    }

    /** One step of the save button: overwrite field `f` only if it differs from `text`, and say so. */
    method SaveField(f: OptionField, text: string)
      modifies this
      ensures Values() == old(Values()).Set(f, Some(text))
      ensures console == old(console) + Notice(old(Values()), f, text)
      ensures dataPath == old(dataPath) && gtfPath == old(gtfPath)
      ensures fastaPath == old(fastaPath) && outPath == old(outPath)
    {
      if Values().Get(f) != Some(text) {
        match f {
          case Analysis => analysis := Some(text);
          case Genome => genome := Some(text);
          case Adapter => adapter := Some(text);
          case Strandedness => strandedness := Some(text);
          case Aligner => aligner := Some(text);
          case Cores => cores := Some(text);
          case RunName => runName := Some(text);
        }
        console := console + [NoticeLine(f, text)];
      }
    }

    /**
     * The save button: each option field, in SAVE_ORDER, is overwritten only
     * when it differs from its line edit, and each overwrite appends one line.
     */
    method OnPushSave(edits: LineEdits)
      modifies this
      ensures Values() == Saved(edits)
      ensures console == old(console) + Notices(old(Values()), edits, SAVE_ORDER)
      ensures dataPath == old(dataPath) && gtfPath == old(gtfPath)
      ensures fastaPath == old(fastaPath) && outPath == old(outPath)
    {
      ghost var b := Values();
      // what the comparisons still to come will append, innermost first
      ghost var r7 := Notice(b, RunName, edits.runName);
      ghost var r6 := Notice(b, Cores, edits.cores) + r7;
      ghost var r5 := Notice(b, Aligner, edits.aligner) + r6;
      ghost var r4 := Notice(b, Strandedness, edits.strandedness) + r5;
      ghost var r3 := Notice(b, Adapter, edits.adapter) + r4;
      ghost var r2 := Notice(b, Genome, edits.genome) + r3;
      ghost var r1 := Notice(b, Analysis, edits.analysis) + r2;
      NoticesInSaveOrder(b, edits);
      AppendAssoc(console, Notice(b, Analysis, edits.analysis), r2);
      SaveField(Analysis, edits.analysis);
      assert console + r2 == old(console) + r1;
      AppendAssoc(console, Notice(b, Genome, edits.genome), r3);
      SaveField(Genome, edits.genome);
      assert console + r3 == old(console) + r1;
      AppendAssoc(console, Notice(b, Adapter, edits.adapter), r4);
      SaveField(Adapter, edits.adapter);
      assert console + r4 == old(console) + r1;
      AppendAssoc(console, Notice(b, Strandedness, edits.strandedness), r5);
      SaveField(Strandedness, edits.strandedness);
      assert console + r5 == old(console) + r1;
      AppendAssoc(console, Notice(b, Aligner, edits.aligner), r6);
      SaveField(Aligner, edits.aligner);
      assert console + r6 == old(console) + r1;
      AppendAssoc(console, Notice(b, Cores, edits.cores), r7);
      SaveField(Cores, edits.cores);
      assert console + r7 == old(console) + r1;
      AppendAssoc(console, Notice(b, RunName, edits.runName), []);
      SaveField(RunName, edits.runName);
      assert console + [] == old(console) + r1;
      assert Values() == Saved(edits);
    }
  }

  /**
   * Each option's slot in the argument vector: its flag comes first, then the
   * stored text when that is a non-empty string, and the default otherwise.
   */
  lemma StoreArgumentsOption(w: ApplicationWindow, f: OptionField)
    ensures var args := w.StoreArguments();
      (f != RunName ==> args[ValueSlot(f) - 1] == Some(Flag(f))) &&
      (Truthy(w.Values().Get(f)) ==> args[ValueSlot(f)] == w.Values().Get(f)) &&
      (!Truthy(w.Values().Get(f)) ==> args[ValueSlot(f)] == Some(Default(f)))
  {
    match f {
      case Analysis => case Genome => case Adapter => case Strandedness =>
      case Aligner => case Cores => case RunName =>
    }
  }

  /** Every slot of the argument vector holds a string exactly when all four paths were chosen. */
  lemma StoreArgumentsComplete(w: ApplicationWindow)
    ensures var args := w.StoreArguments();
      (forall i :: 0 <= i < |args| ==> args[i].Some?) <==>
      (w.dataPath.Some? && w.fastaPath.Some? && w.gtfPath.Some? && w.outPath.Some?)
  {
    var args := w.StoreArguments();
    if w.dataPath.Some? && w.fastaPath.Some? && w.gtfPath.Some? && w.outPath.Some? {
      forall i | 0 <= i < |args|
        ensures args[i].Some?
      {
        if i !in {2, 3, 4, 18} {
          assert args[i].Some?;
        }
      }
    }
  }

  /** Pressing save twice with unchanged line edits: the second press appends nothing. */
  method SaveTwice(w: ApplicationWindow, edits: LineEdits)
    modifies w
    ensures w.Values() == Saved(edits)
    ensures w.console == old(w.console) + Notices(old(w.Values()), edits, SAVE_ORDER)
  {
    w.OnPushSave(edits);
    ghost var afterFirst := w.console;
    QuietSaveIffSaved(w.Values(), edits);
    w.OnPushSave(edits);
    assert w.console == afterFirst;
  }
}
