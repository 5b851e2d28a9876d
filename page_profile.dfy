/**
 * The CTD profile page: the selection state behind its callbacks (the
 * filtered file list, the current parameter, the current file), the list
 * of parameters offered, the list of reference files, and the automatic
 * quality-control run over the selected routines.
 *
 * Plotting, maps and widgets are outside the model. What the session and
 * the user settings answer is passed in (`parametersOf`, `priorityOf`,
 * `pathOf`, `optionsOf`, the outcome of a QC call), and what is asked of
 * them is recorded (`qcCalls`, `backgrounds`, `prioritySets`).
 */
module ProfilePage {
  import opened Text
  import opened Maybe
  import opened Dicts
  import opened SortedSets
  import opened Notices

  // -----------------------------------------------------------------------
  // Automatic quality control

  /** How the session's `run_automatic_qc` ends for one routine. */
  datatype QcOutcome =
    | QcDone
    | QcImportError(message: String)
    | QcMissingInput(message: String)
      /** Any other exception: nothing in `_run_qc` catches it. */
    | QcFailure(message: String)

  /** One call of `run_automatic_qc`: the files, the routine and the options stored for it. */
  datatype QcCall = QcCall(files: seq<String>, routine: String, options: Dict<String>)

  /** How a run, or a part of it, ends: it goes on, it returns, or an exception escapes. */
  datatype QcEnd = Next | Stopped | Raised

  /** What a run asks of the session, the boxes it pops up, and how it ends. */
  datatype QcReport = QcReport(calls: seq<QcCall>, notices: seq<Notice>, end: QcEnd)

  /**
   * The box for a missing input argument: a message naming a parameter
   * list asks for parameters, one naming a save directory asks for a valid
   * directory, and anything else is an unknown error.
   */
  function MissingInputNotice(routine: String, message: String): (n: Notice)
    ensures n == Warning("No parameter selected", routine)
        <==> Contains(message, "parameter") && Contains(message, "list")
    ensures n == Warning("Invalid save directory", routine)
        <==> !(Contains(message, "parameter") && Contains(message, "list"))
             && Contains(message, "save") && Contains(message, "directory")
    ensures n.Error? <==> n == Error("Unknown error", message)
    ensures n.Warning? || n.Error?
  {
    if Contains(message, "parameter") && Contains(message, "list") then Warning("No parameter selected", routine)
    else if Contains(message, "save") && Contains(message, "directory") then Warning("Invalid save directory", routine)
    else Error("Unknown error", message)
  }

  /** Running one routine: an import error is reported and the run goes on; a missing argument ends it. */
  function QcStep(files: seq<String>, routine: String, optionsOf: String -> Dict<String>,
                  outcome: QcCall -> QcOutcome): (r: QcReport)
    ensures r.calls == [QcCall(files, routine, optionsOf(routine))]
    ensures var o := outcome(QcCall(files, routine, optionsOf(routine)));
            (r.end == Next <==> o.QcDone? || o.QcImportError?)
            && (r.end == Stopped <==> o.QcMissingInput?)
    ensures forall n :: n in r.notices ==> !n.QcSummary?
  {
    var call := QcCall(files, routine, optionsOf(routine));
    match outcome(call)
    case QcDone => QcReport([call], [], Next)
    case QcImportError(m) => QcReport([call], [Error("Import error", m)], Next)
    case QcMissingInput(m) => QcReport([call], [MissingInputNotice(routine, m)], Stopped)
    case QcFailure(_) => QcReport([call], [], Raised)
  }

  /** Going on with `b` after `a`, unless `a` ended the run. */
  function Then(a: QcReport, b: QcReport): QcReport {
    if a.end == Next then QcReport(a.calls + b.calls, a.notices + b.notices, b.end) else a
  }

  /** Running the routines in order until one of them ends the run. */
  function QcLoop(files: seq<String>, routines: seq<String>, optionsOf: String -> Dict<String>,
                  outcome: QcCall -> QcOutcome): QcReport
  {
    if routines == [] then QcReport([], [], Next)
    else Then(QcLoop(files, routines[..|routines| - 1], optionsOf, outcome),
              QcStep(files, routines[|routines| - 1], optionsOf, outcome))
  }

  /** The files a run covers: all filtered files, or the current one. */
  function QcFiles(runAll: bool, filtered: seq<String>, current: String): seq<String> {
    if runAll then filtered else [current]
  }

  /**
   * `_run_qc`: without "run on all files" and without a current file only
   * the user is told; otherwise the routines run on the files, and a run
   * that gets through all of them ends with the summary naming every
   * selected routine.
   */
  function RunQc(runAll: bool, filtered: seq<String>, current: String, routines: seq<String>,
                 optionsOf: String -> Dict<String>, outcome: QcCall -> QcOutcome): QcReport
  {
    if !runAll && current == [] then QcReport([], [Information("No file selected", [])], Stopped)
    else
      var files := QcFiles(runAll, filtered, current);
      var l := QcLoop(files, routines, optionsOf, outcome);
      if l.end == Next then QcReport(l.calls, l.notices + [QcSummary(|files|, routines)], Next) else l
  }

  /** The routines are run in the order selected, each on the run's files with its own options. */
  lemma {:induction false} QcLoopOrder(files: seq<String>, routines: seq<String>,
                                       optionsOf: String -> Dict<String>, outcome: QcCall -> QcOutcome)
    ensures var r := QcLoop(files, routines, optionsOf, outcome);
            |r.calls| <= |routines|
            && (forall i :: 0 <= i < |r.calls| ==> r.calls[i] == QcCall(files, routines[i], optionsOf(routines[i])))
            && (r.end == Next ==> |r.calls| == |routines|)
  {
    if routines != [] {
      var init := routines[..|routines| - 1];
      QcLoopOrder(files, init, optionsOf, outcome);
      var a := QcLoop(files, init, optionsOf, outcome);
      var r := QcLoop(files, routines, optionsOf, outcome);
      forall i | 0 <= i < |r.calls| ensures r.calls[i] == QcCall(files, routines[i], optionsOf(routines[i])) {
        if i < |a.calls| {
          assert init[i] == routines[i];
        }
      }
    }
  }

  /** The run gets through all routines exactly when none of them ends it. */
  lemma {:induction false} QcLoopGoesOn(files: seq<String>, routines: seq<String>,
                                        optionsOf: String -> Dict<String>, outcome: QcCall -> QcOutcome)
    ensures QcLoop(files, routines, optionsOf, outcome).end == Next
        <==> forall i :: 0 <= i < |routines| ==> QcStep(files, routines[i], optionsOf, outcome).end == Next
  {
    if routines != [] {
      var init := routines[..|routines| - 1];
      QcLoopGoesOn(files, init, optionsOf, outcome);
      assert forall i :: 0 <= i < |init| ==> init[i] == routines[i];
      if QcLoop(files, init, optionsOf, outcome).end != Next {
        var i :| 0 <= i < |init| && QcStep(files, init[i], optionsOf, outcome).end != Next;
        assert routines[i] == init[i];
      }
    }
  }

  /**
   * A run that ends early ends at its last call: every earlier routine
   * went on, and no routine after it was run.
   */
  lemma {:induction false} QcLoopStops(files: seq<String>, routines: seq<String>,
                                       optionsOf: String -> Dict<String>, outcome: QcCall -> QcOutcome)
    ensures var r := QcLoop(files, routines, optionsOf, outcome);
            r.end != Next ==>
              1 <= |r.calls| <= |routines|
              && (forall j :: 0 <= j < |r.calls| - 1 ==> QcStep(files, routines[j], optionsOf, outcome).end == Next)
              && QcStep(files, routines[|r.calls| - 1], optionsOf, outcome).end == r.end
  {
    if routines != [] {
      var n := |routines|;
      var init := routines[..n - 1];
      var a := QcLoop(files, init, optionsOf, outcome);
      QcLoopOrder(files, init, optionsOf, outcome);
      if a.end != Next {
        QcLoopStops(files, init, optionsOf, outcome);
        assert forall j :: 0 <= j < |a.calls| ==> init[j] == routines[j];
      } else {
        QcLoopGoesOn(files, init, optionsOf, outcome);
        assert forall j :: 0 <= j < n - 1 ==> init[j] == routines[j];
      }
    }
  }

  /** The loop itself never shows the summary. */
  lemma {:induction false} QcLoopNoSummary(files: seq<String>, routines: seq<String>,
                                           optionsOf: String -> Dict<String>, outcome: QcCall -> QcOutcome)
    ensures forall n :: n in QcLoop(files, routines, optionsOf, outcome).notices ==> !n.QcSummary?
  {
    if routines != [] {
      QcLoopNoSummary(files, routines[..|routines| - 1], optionsOf, outcome);
    }
  }

  /** With "run on all files" off and no current file, no routine runs and only the user is told. */
  lemma RunQcWithoutFile(filtered: seq<String>, routines: seq<String>,
                         optionsOf: String -> Dict<String>, outcome: QcCall -> QcOutcome)
    ensures var r := RunQc(false, filtered, [], routines, optionsOf, outcome);
            r.calls == [] && r.notices == [Information("No file selected", [])] && r.end == Stopped
  {
  }

  /**
   * A run with files gets to the summary exactly when no routine ends it;
   * then every selected routine was run, an import error included, and
   * the summary names them all. A run that ends early shows no summary.
   */
  lemma RunQcSummary(runAll: bool, filtered: seq<String>, current: String, routines: seq<String>,
                     optionsOf: String -> Dict<String>, outcome: QcCall -> QcOutcome)
    requires runAll || current != []
    ensures var files := QcFiles(runAll, filtered, current);
            var r := RunQc(runAll, filtered, current, routines, optionsOf, outcome);
            (r.end == Next <==> forall i :: 0 <= i < |routines| ==> QcStep(files, routines[i], optionsOf, outcome).end == Next)
            && (r.end == Next ==> |r.calls| == |routines| && r.notices[|r.notices| - 1] == QcSummary(|files|, routines))
            && (r.end != Next ==> forall n :: n in r.notices ==> !n.QcSummary?)
  {
    var files := QcFiles(runAll, filtered, current);
    QcLoopGoesOn(files, routines, optionsOf, outcome);
    QcLoopOrder(files, routines, optionsOf, outcome);
    QcLoopNoSummary(files, routines, optionsOf, outcome);
  }

  /** Running one more routine of the list adds its step to the loop. */
  lemma QcLoopExtend(files: seq<String>, routines: seq<String>, optionsOf: String -> Dict<String>,
                     outcome: QcCall -> QcOutcome, k: nat)
    requires k < |routines|
    ensures QcLoop(files, routines[..k + 1], optionsOf, outcome)
         == Then(QcLoop(files, routines[..k], optionsOf, outcome), QcStep(files, routines[k], optionsOf, outcome))
  {
    assert routines[..k + 1][..k] == routines[..k];
  }

  /** When the `k`-th routine ends the run after all earlier ones went on, later routines change nothing. */
  lemma {:induction false} QcLoopStopsAt(files: seq<String>, routines: seq<String>,
                                         optionsOf: String -> Dict<String>, outcome: QcCall -> QcOutcome, k: nat)
    requires k < |routines|
    requires QcLoop(files, routines[..k], optionsOf, outcome).end == Next
    requires QcStep(files, routines[k], optionsOf, outcome).end != Next
    ensures QcLoop(files, routines, optionsOf, outcome) == QcLoop(files, routines[..k + 1], optionsOf, outcome)
  {
    if |routines| == k + 1 {
      assert routines[..k + 1] == routines;
    } else {
      var init := routines[..|routines| - 1];
      assert init[..k] == routines[..k] && init[k] == routines[k] && init[..k + 1] == routines[..k + 1];
      QcLoopStopsAt(files, init, optionsOf, outcome, k);
      QcLoopExtend(files, routines, optionsOf, outcome, k);
    }
  }

  /** The loop of `_run_qc` over the selected routines, returning at the first one that ends the run. */
  method RunQcLoop(files: seq<String>, routines: seq<String>, optionsOf: String -> Dict<String>,
                   outcome: QcCall -> QcOutcome) returns (r: QcReport)
    ensures r == QcLoop(files, routines, optionsOf, outcome)
  {
    r := QcReport([], [], Next);
    var i := 0;
    while i < |routines|
      invariant i <= |routines|
      invariant r == QcLoop(files, routines[..i], optionsOf, outcome) && r.end == Next
    {
      var routine := routines[i];
      var call := QcCall(files, routine, optionsOf(routine));
      QcLoopExtend(files, routines, optionsOf, outcome, i);
      match outcome(call) {
        case QcDone =>
          r := QcReport(r.calls + [call], r.notices, Next);
        case QcImportError(m) =>
          r := QcReport(r.calls + [call], r.notices + [Error("Import error", m)], Next);
        case QcMissingInput(m) =>
          QcLoopStopsAt(files, routines, optionsOf, outcome, i);
          return QcReport(r.calls + [call], r.notices + [MissingInputNotice(routine, m)], Stopped);
        case QcFailure(_) =>
          QcLoopStopsAt(files, routines, optionsOf, outcome, i);
          return QcReport(r.calls + [call], r.notices, Raised);
      }
      i := i + 1;
    }
    assert routines[..i] == routines;
  }

  // -----------------------------------------------------------------------
  // Reference files

  /** The prefixes a reference file's label may start with. */
  const AllowedCompareFiles: seq<String> := ["PhysicalChemical"]

  /** The inner loop of `_update_frame_reference_file`: the item once for every prefix it starts with. */
  function Matching(item: String, prefixes: seq<String>): (r: seq<String>)
    ensures |r| <= |prefixes|
  {
    if prefixes == [] then []
    else Matching(item, prefixes[..|prefixes| - 1]) + (if StartsWith(item, prefixes[|prefixes| - 1]) then [item] else [])
  }

  /** The reference files offered: the loaded entries, skipping `None`, each as often as it matches a prefix. */
  function RefFiles(loaded: seq<Option<String>>, prefixes: seq<String>): seq<String> {
    if loaded == [] then []
    else
      var last := loaded[|loaded| - 1];
      RefFiles(loaded[..|loaded| - 1], prefixes) + (if last.None? then [] else Matching(last.value, prefixes))
  }

  /** The loaded entries, in order, that are present and start with `prefix`. */
  function Kept(loaded: seq<Option<String>>, prefix: String): seq<String> {
    if loaded == [] then []
    else (if loaded[0].Some? && StartsWith(loaded[0].value, prefix) then [loaded[0].value] else [])
         + Kept(loaded[1..], prefix)
  }

  lemma {:induction false} KeptAppend(a: seq<Option<String>>, b: seq<Option<String>>, prefix: String)
    ensures Kept(a + b, prefix) == Kept(a, prefix) + Kept(b, prefix)
  {
    if a == [] {
      assert a + b == b;
    } else {
      assert (a + b)[1..] == a[1..] + b;
      KeptAppend(a[1..], b, prefix);
      AppendAssociative(if a[0].Some? && StartsWith(a[0].value, prefix) then [a[0].value] else [],
                        Kept(a[1..], prefix), Kept(b, prefix));
    }
  }

  /** Kept entries are exactly the present ones that start with the prefix. */
  lemma {:induction false} KeptMembers(loaded: seq<Option<String>>, prefix: String)
    ensures forall y :: y in Kept(loaded, prefix) <==> Some(y) in loaded && StartsWith(y, prefix)
  {
    if loaded != [] {
      KeptMembers(loaded[1..], prefix);
      assert loaded == [loaded[0]] + loaded[1..];
    }
  }

  /**
   * With a single allowed prefix, the reference files are the present
   * loaded entries that start with it, each once, in the order loaded.
   */
  lemma {:induction false} RefFilesOnePrefix(loaded: seq<Option<String>>, prefix: String)
    ensures RefFiles(loaded, [prefix]) == Kept(loaded, prefix)
    ensures forall y :: y in RefFiles(loaded, [prefix]) <==> Some(y) in loaded && StartsWith(y, prefix)
  {
    if loaded != [] {
      var n := |loaded|;
      RefFilesOnePrefix(loaded[..n - 1], prefix);
      assert loaded == loaded[..n - 1] + [loaded[n - 1]];
      KeptAppend(loaded[..n - 1], [loaded[n - 1]], prefix);
      assert [prefix][..0] == [];
    }
    KeptMembers(loaded, prefix);
  }

  /** `_update_frame_reference_file`: the two nested loops collecting the reference files. */
  method RefFileList(loaded: seq<Option<String>>, prefixes: seq<String>) returns (r: seq<String>)
    ensures r == RefFiles(loaded, prefixes)
  {
    r := [];
    var i := 0;
    while i < |loaded|
      invariant i <= |loaded|
      invariant r == RefFiles(loaded[..i], prefixes)
    {
      assert loaded[..i + 1][..i] == loaded[..i];
      var item := loaded[i];
      if item.Some? {
        var before := r;
        var j := 0;
        while j < |prefixes|
          invariant j <= |prefixes|
          invariant r == before + Matching(item.value, prefixes[..j])
        {
          assert prefixes[..j + 1][..j] == prefixes[..j];
          if StartsWith(item.value, prefixes[j]) {
            AppendAssociative(before, Matching(item.value, prefixes[..j]), [item.value]);
            r := r + [item.value];
          }
          j := j + 1;
        }
        assert prefixes[..j] == prefixes;
      }
      i := i + 1;
    }
    assert loaded[..i] == loaded;
  }

  // -----------------------------------------------------------------------
  // The parameter list

  /** The names removed from the offered parameters, in the order they are removed. */
  const ExcludedParameters: seq<String> := ["time", "lat", "lon", "depth"]

  /** The parameters of the files in order, repeats kept: the `extend` loop. */
  function AllParameters(files: seq<String>, parametersOf: String -> seq<String>): seq<String> {
    if files == [] then []
    else AllParameters(files[..|files| - 1], parametersOf) + parametersOf(files[|files| - 1])
  }

  /** A name is among all parameters exactly when one of the files has it. */
  lemma {:induction false} AllParametersMembers(files: seq<String>, parametersOf: String -> seq<String>, y: String)
    ensures y in AllParameters(files, parametersOf) <==> exists i :: 0 <= i < |files| && y in parametersOf(files[i])
  {
    if files != [] {
      var n := |files|;
      AllParametersMembers(files[..n - 1], parametersOf, y);
      if y in AllParameters(files[..n - 1], parametersOf) {
        var i :| 0 <= i < n - 1 && y in parametersOf(files[..n - 1][i]);
        assert files[i] == files[..n - 1][i];
      } else {
        assert forall i :: 0 <= i < n - 1 ==> files[..n - 1][i] == files[i];
      }
    }
  }

  /** `list.pop(list.index(p))` for each excluded `p` in turn; `None` for the `ValueError` of a missing one. */
  function Excluding(list: seq<String>, excluded: seq<String>): Option<seq<String>> {
    if excluded == [] then Some(list)
    else
      var p := excluded[|excluded| - 1];
      match Excluding(list, excluded[..|excluded| - 1])
      case None => None
      case Some(l) => if p in l then Some(RemoveFirst(l, p)) else None
  }

  /** Removing names from a sorted list, when it succeeds, leaves it sorted with exactly the other names. */
  lemma {:induction false} ExcludingContents(list: seq<String>, excluded: seq<String>)
    requires StrictlySorted(list)
    ensures Excluding(list, excluded).Some? ==>
              StrictlySorted(Excluding(list, excluded).value)
              && (forall y :: y in Excluding(list, excluded).value <==> y in list && y !in excluded)
  {
    if excluded != [] {
      var n := |excluded|;
      var init := excluded[..n - 1];
      var p := excluded[n - 1];
      ExcludingContents(list, init);
      assert excluded == init + [p];
      var e := Excluding(list, init);
      if e.Some? && p in e.value {
        RemoveFirstSorted(e.value, p);
      }
    }
  }

  /** Removing distinct names from a sorted list succeeds exactly when all of them are in it. */
  lemma {:induction false} ExcludingSucceeds(list: seq<String>, excluded: seq<String>)
    requires StrictlySorted(list) && NoDuplicates(excluded)
    ensures Excluding(list, excluded).Some? <==> forall i :: 0 <= i < |excluded| ==> excluded[i] in list
  {
    if excluded != [] {
      var n := |excluded|;
      var init := excluded[..n - 1];
      var p := excluded[n - 1];
      assert NoDuplicates(init);
      ExcludingSucceeds(list, init);
      ExcludingContents(list, init);
      assert forall i :: 0 <= i < n - 1 ==> init[i] == excluded[i];
      assert p !in init;
      var e := Excluding(list, init);
      if e.None? {
        var i :| 0 <= i < n - 1 && init[i] !in list;
        assert excluded[i] !in list;
      }
    }
  }

  /** `_update_parameter_list`: the sorted distinct parameters of the filtered files, without the excluded names. */
  function ParameterListOf(files: seq<String>, parametersOf: String -> seq<String>): Option<seq<String>> {
    Excluding(SortedDistinct(AllParameters(files, parametersOf)), ExcludedParameters)
  }

  /**
   * The parameter list exists exactly when the files together have all
   * four excluded names; it is then sorted and holds exactly the other
   * names some file has.
   */
  lemma ParameterListMeaning(files: seq<String>, parametersOf: String -> seq<String>)
    ensures ParameterListOf(files, parametersOf).Some?
        <==> forall i :: 0 <= i < |ExcludedParameters| ==> ExcludedParameters[i] in AllParameters(files, parametersOf)
    ensures ParameterListOf(files, parametersOf).Some? ==>
              StrictlySorted(ParameterListOf(files, parametersOf).value)
              && (forall y :: y in ParameterListOf(files, parametersOf).value <==>
                                y in AllParameters(files, parametersOf) && y !in ExcludedParameters)
  {
    var all := SortedDistinct(AllParameters(files, parametersOf));
    assert NoDuplicates(ExcludedParameters) by {
      var e := ExcludedParameters;
      assert e[0] != e[1] && e[0] != e[2] && e[0] != e[3] && e[1] != e[2] && e[1] != e[3] && e[2] != e[3];
    }
    ExcludingSucceeds(all, ExcludedParameters);
    ExcludingContents(all, ExcludedParameters);
  }

  /** The `extend` loop of `_update_parameter_list`. */
  method GatherParameters(files: seq<String>, parametersOf: String -> seq<String>) returns (all: seq<String>)
    ensures all == AllParameters(files, parametersOf)
  {
    all := [];
    var i := 0;
    while i < |files|
      invariant i <= |files|
      invariant all == AllParameters(files[..i], parametersOf)
    {
      assert files[..i + 1][..i] == files[..i];
      all := all + parametersOf(files[i]);
      i := i + 1;
    }
    assert files[..i] == files;
  }

  /** The removal loop of `_update_parameter_list`; `None` where `index` raises. */
  method ExcludeParameters(list: seq<String>, excluded: seq<String>) returns (r: Option<seq<String>>)
    ensures r == Excluding(list, excluded)
  {
    var l := list;
    var i := 0;
    while i < |excluded|
      invariant i <= |excluded|
      invariant Excluding(list, excluded[..i]) == Some(l)
    {
      var p := excluded[i];
      assert excluded[..i + 1][..i] == excluded[..i];
      if p !in l {
        ExcludingStops(list, excluded, i);
        return None;
      }
      l := RemoveFirst(l, p);
      i := i + 1;
    }
    assert excluded[..i] == excluded;
    r := Some(l);
  }

  /** Once a name is missing, the removals fail whatever follows. */
  lemma {:induction false} ExcludingStops(list: seq<String>, excluded: seq<String>, k: nat)
    requires k < |excluded|
    requires Excluding(list, excluded[..k + 1]).None?
    ensures Excluding(list, excluded).None?
  {
    if |excluded| == k + 1 {
      assert excluded[..k + 1] == excluded;
    } else {
      var init := excluded[..|excluded| - 1];
      assert init[..k + 1] == excluded[..k + 1];
      ExcludingStops(list, init, k);
    }
  }

  // -----------------------------------------------------------------------
  // The page

  /** One call of the background plot update: the files drawn, the parameter, and whether the plot was cleared first. */
  datatype Background = Background(files: seq<String>, parameter: String, cleared: bool)

  /**
   * What `_check_loaded_data` tells the user: nothing when files are
   * loaded and one is current, otherwise the one box naming what is missing.
   */
  function MissingDataNotices(loaded: seq<Option<String>>, currentFileId: String): (r: seq<Notice>)
    ensures r == [] <==> loaded != [] && currentFileId != []
    ensures loaded == [] ==> r == [Information("No data files loaded", [])]
    ensures loaded != [] && currentFileId == [] ==> r == [Information("No data file selected", [])]
  {
    if loaded == [] then [Information("No data files loaded", [])]
    else if currentFileId == [] then [Information("No data file selected", [])]
    else []
  }

  class PageProfile {
    /** The filtered file ids of the data-selection widget, and its selected file id (if a row is selected). */
    var filtered: seq<String>
    var selection: Option<String>
    /** "Run QC on all files", and the QC routines selected in the routine widget. */
    var runAllFiles: bool
    var selectedRoutines: seq<String>

    var currentFileIdList: seq<String>
    var currentFileId: String
    var currentSamplingType: String
    var currentFilePath: String
    /** The session's data object of the current file, named by its file id. */
    var currentGismo: Option<String>
    var currentParameter: String
    var oldParameter: String
    /** The file whose sampling-type settings the flag widget was built from, once it has been. */
    var flagSettingsFile: Option<String>

    /** The parameter widget's items, the reference-file widget's items, and the save widget's path. */
    var parameterItems: seq<String>
    var refFileItems: seq<String>
    var savePath: String

    /** What the page asks of its collaborators, in order. */
    var backgrounds: seq<Background>
    var prioritySets: seq<String>
    var qcCalls: seq<QcCall>
    var qcWidgetLists: seq<seq<String>>
    var flagRebuilds: nat
    var pageUpdates: nat
    var notices: seq<Notice>

    /** `__init__`: no file, no parameter, no flag settings, nothing asked yet. */
    constructor ()
      ensures currentFileIdList == [] && currentFileId == [] && currentSamplingType == [] && currentParameter == []
      ensures flagSettingsFile == None
      ensures backgrounds == [] && prioritySets == [] && qcCalls == [] && qcWidgetLists == [] && notices == []
      ensures flagRebuilds == 0 && pageUpdates == 0
    {
      filtered := [];
      selection := None;
      runAllFiles := false;
      selectedRoutines := [];
      currentFileIdList := [];
      currentFileId := [];
      currentSamplingType := [];
      currentFilePath := [];
      currentGismo := None;
      currentParameter := [];
      oldParameter := [];
      flagSettingsFile := None;
      parameterItems := [];
      refFileItems := [];
      savePath := [];
      backgrounds := [];
      prioritySets := [];
      qcCalls := [];
      qcWidgetLists := [];
      flagRebuilds := 0;
      pageUpdates := 0;
      notices := [];
    }

    /** `update_page` (widget refresh and maps aside): the reference files are offered again. */
    method UpdatePage(loaded: seq<Option<String>>)
      modifies this`refFileItems, this`pageUpdates
      ensures refFileItems == RefFiles(loaded, AllowedCompareFiles) && pageUpdates == old(pageUpdates) + 1
    {
      refFileItems := RefFileList(loaded, AllowedCompareFiles);
      pageUpdates := pageUpdates + 1;
    }

    /**
     * `_update_plot_background`: nothing without a parameter; one file is
     * drawn over the plot, and without a file id the filtered files are
     * drawn on a cleared plot and become the current file list.
     */
    method UpdatePlotBackground(fileId: String)
      modifies this`backgrounds, this`currentFileIdList
      ensures currentParameter == [] ==> backgrounds == old(backgrounds) && currentFileIdList == old(currentFileIdList)
      ensures currentParameter != [] && fileId != [] ==>
                backgrounds == old(backgrounds) + [Background([fileId], currentParameter, false)]
                && currentFileIdList == old(currentFileIdList)
      ensures currentParameter != [] && fileId == [] ==>
                backgrounds == old(backgrounds) + [Background(filtered, currentParameter, true)]
                && currentFileIdList == filtered
    {
      if currentParameter == [] {
        return;
      }
      if fileId != [] {
        backgrounds := backgrounds + [Background([fileId], currentParameter, false)];
      } else {
        var fileIdList := filtered;
        backgrounds := backgrounds + [Background(fileIdList, currentParameter, true)];
        currentFileIdList := fileIdList;
      }
    }

    /**
     * `_update_notebook_frame_flag`: the flag widget is built once, from
     * the settings of the first filtered file; later calls leave it alone.
     * With no settings known and no filtered file the source destroys the
     * old widget and returns; its only caller never reaches it with an
     * empty list, and the model leaves that case unchanged.
     */
    method UpdateNotebookFrameFlag()
      modifies this`flagSettingsFile, this`flagRebuilds
      ensures old(flagSettingsFile).Some? || filtered == [] ==>
                flagSettingsFile == old(flagSettingsFile) && flagRebuilds == old(flagRebuilds)
      ensures old(flagSettingsFile).None? && filtered != [] ==>
                flagSettingsFile == Some(filtered[0]) && flagRebuilds == old(flagRebuilds) + 1
    {
      if flagSettingsFile.None? {
        var fileIdList := filtered;
        if fileIdList == [] {
          return;
        }
        flagSettingsFile := Some(fileIdList[0]);
        flagRebuilds := flagRebuilds + 1;
      }
    }

    /**
     * `_update_parameter_list`: the widget offers the parameter list and
     * the current parameter becomes the user's priority among it. A
     * missing excluded name raises before anything changes.
     */
    method UpdateParameterList(parametersOf: String -> seq<String>, priorityOf: seq<String> -> String)
      returns (raised: bool)
      modifies this`parameterItems, this`currentParameter
      ensures raised <==> ParameterListOf(filtered, parametersOf).None?
      ensures raised ==> parameterItems == old(parameterItems) && currentParameter == old(currentParameter)
      ensures !raised ==>
                parameterItems == ParameterListOf(filtered, parametersOf).value
                && currentParameter == priorityOf(parameterItems)
    {
      var all := GatherParameters(filtered, parametersOf);
      var list := ExcludeParameters(SortedDistinct(all), ExcludedParameters);
      if list.None? {
        return true;
      }
      parameterItems := list.value;
      currentParameter := priorityOf(list.value);
      raised := false;
    }

    /**
     * `_callback_filter_update`: the parameter list is rebuilt; an
     * unchanged file list redraws the background only when asked to, and
     * a changed one updates the flag widget, redraws the background and
     * hands the list to the QC routine widget. Once a parameter is
     * current, the filtered list is the current one afterwards, so a
     * second call with the same filter rebuilds nothing.
     */
    method CallbackFilterUpdate(updateBackground: bool, parametersOf: String -> seq<String>,
                                priorityOf: seq<String> -> String) returns (raised: bool)
      modifies this`parameterItems, this`currentParameter, this`backgrounds, this`currentFileIdList
      modifies this`flagSettingsFile, this`flagRebuilds, this`qcWidgetLists
      ensures raised <==> ParameterListOf(filtered, parametersOf).None?
      ensures raised ==> parameterItems == old(parameterItems) && currentParameter == old(currentParameter)
      ensures !raised ==>
                parameterItems == ParameterListOf(filtered, parametersOf).value
                && currentParameter == priorityOf(parameterItems)
      ensures raised ==> backgrounds == old(backgrounds) && currentFileIdList == old(currentFileIdList)
                         && flagRebuilds == old(flagRebuilds) && qcWidgetLists == old(qcWidgetLists)
                         && flagSettingsFile == old(flagSettingsFile)
      ensures !raised && filtered == old(currentFileIdList) ==>
                flagSettingsFile == old(flagSettingsFile)
                && flagRebuilds == old(flagRebuilds) && qcWidgetLists == old(qcWidgetLists)
                && currentFileIdList == old(currentFileIdList)
                && backgrounds == old(backgrounds)
                   + (if updateBackground && currentParameter != [] then [Background(filtered, currentParameter, true)]
                      else [])
      ensures !raised && filtered != old(currentFileIdList) ==>
                qcWidgetLists == old(qcWidgetLists) + [filtered]
                && flagRebuilds == old(flagRebuilds) + (if old(flagSettingsFile).None? && filtered != [] then 1 else 0)
                && flagSettingsFile == (if old(flagSettingsFile).None? && filtered != [] then Some(filtered[0])
                                        else old(flagSettingsFile))
                && (currentParameter != [] ==> backgrounds == old(backgrounds) + [Background(filtered, currentParameter, true)])
                && (currentParameter == [] ==>
                      backgrounds == old(backgrounds) && currentFileIdList == old(currentFileIdList))
      ensures !raised && currentParameter != [] && (updateBackground || filtered != old(currentFileIdList)) ==>
                currentFileIdList == filtered
    {
      var fileIdList := filtered;
      raised := UpdateParameterList(parametersOf, priorityOf);
      if raised {
        return;
      }
      if fileIdList == currentFileIdList {
        if updateBackground {
          UpdatePlotBackground([]);
        }
        return;
      }
      UpdateNotebookFrameFlag();
      UpdatePlotBackground([]);
      qcWidgetLists := qcWidgetLists + [fileIdList];
    }

    /** `_check_loaded_data`: there must be loaded files and a current file; otherwise the user is told which is missing. */
    method CheckLoadedData(loaded: seq<Option<String>>) returns (ok: bool)
      modifies this`notices
      ensures ok <==> loaded != [] && currentFileId != []
      ensures notices == old(notices) + MissingDataNotices(loaded, currentFileId)
    {
      if loaded == [] {
        notices := notices + [Information("No data files loaded", [])];
        return false;
      }
      if currentFileId == [] {
        notices := notices + [Information("No data file selected", [])];
        return false;
      }
      ok := true;
    }

    /**
     * `_on_select_parameter` with `chosen` in the parameter widget: an
     * empty choice stops there; a changed parameter redraws the background
     * and becomes the user's priority, a re-selected one does neither; then
     * the plot update checks the loaded data.
     */
    method OnSelectParameter(chosen: String, loaded: seq<Option<String>>)
      modifies this`oldParameter, this`currentParameter, this`backgrounds, this`currentFileIdList
      modifies this`prioritySets, this`notices
      ensures oldParameter == old(currentParameter) && currentParameter == chosen
      ensures chosen == [] ==> notices == old(notices)
      ensures chosen != [] ==> notices == old(notices) + MissingDataNotices(loaded, currentFileId)
      ensures chosen == [] || chosen == old(currentParameter) ==>
                backgrounds == old(backgrounds) && prioritySets == old(prioritySets)
                && currentFileIdList == old(currentFileIdList)
      ensures chosen != [] && chosen != old(currentParameter) ==>
                backgrounds == old(backgrounds) + [Background(filtered, chosen, true)]
                && currentFileIdList == filtered && prioritySets == old(prioritySets) + [chosen]
    {
      oldParameter := currentParameter;
      currentParameter := chosen;
      if currentParameter == [] {
        return;
      }
      if currentParameter != oldParameter {
        UpdatePlotBackground([]);
        prioritySets := prioritySets + [currentParameter];
      }
      var _ := CheckLoadedData(loaded);
    }

    /** `_reset_file_id`. */
    method ResetFileId()
      modifies this`currentSamplingType, this`currentFileId, this`currentFilePath, this`currentGismo
      ensures currentSamplingType == [] && currentFileId == [] && currentFilePath == [] && currentGismo == None
    {
      currentSamplingType := [];
      currentFileId := [];
      currentFilePath := [];
      currentGismo := None;
    }

    /**
     * `_set_current_file`: without a selected row the current file is
     * reset; otherwise the selected file id, its path and its data object
     * become current. The new state depends on the selection alone.
     */
    method SetCurrentFile(pathOf: String -> String)
      modifies this`currentSamplingType, this`currentFileId, this`currentFilePath, this`currentGismo
      ensures selection.None? ==>
                currentSamplingType == [] && currentFileId == [] && currentFilePath == [] && currentGismo == None
      ensures selection.Some? ==>
                currentFileId == selection.value && currentSamplingType == []
                && currentFilePath == pathOf(selection.value) && currentGismo == Some(selection.value)
    {
      if selection.None? {
        ResetFileId();
        return;
      }
      currentFileId := selection.value;
      currentSamplingType := [];
      currentFilePath := pathOf(currentFileId);
      currentGismo := Some(currentFileId);
    }

    /**
     * `_callback_filter_select`: the selected row becomes the current
     * file, the save widget gets its path, and the parameter in the
     * parameter widget is selected again.
     */
    method CallbackFilterSelect(pathOf: String -> String, chosen: String, loaded: seq<Option<String>>)
      modifies this`currentSamplingType, this`currentFileId, this`currentFilePath, this`currentGismo, this`savePath
      modifies this`oldParameter, this`currentParameter, this`backgrounds, this`currentFileIdList
      modifies this`prioritySets, this`notices
      ensures currentFileId == (if selection.Some? then selection.value else [])
      ensures savePath == currentFilePath == (if selection.Some? then pathOf(selection.value) else [])
      ensures currentSamplingType == [] && currentGismo == (if selection.Some? then Some(selection.value) else None)
      ensures oldParameter == old(currentParameter) && currentParameter == chosen
      ensures chosen == [] ==> notices == old(notices)
      ensures chosen != [] ==> notices == old(notices) + MissingDataNotices(loaded, currentFileId)
      ensures chosen == [] || chosen == old(currentParameter) ==>
                backgrounds == old(backgrounds) && prioritySets == old(prioritySets)
                && currentFileIdList == old(currentFileIdList)
      ensures chosen != [] && chosen != old(currentParameter) ==>
                backgrounds == old(backgrounds) + [Background(filtered, chosen, true)]
                && currentFileIdList == filtered && prioritySets == old(prioritySets) + [chosen]
    {
      SetCurrentFile(pathOf);
      savePath := currentFilePath;
      OnSelectParameter(chosen, loaded);
    }

    /**
     * `_run_qc`: the run over the selected routines, with the page
     * updated and the summary shown when it gets through them all.
     */
    method RunQcPage(optionsOf: String -> Dict<String>, outcome: QcCall -> QcOutcome, loaded: seq<Option<String>>)
      returns (end: QcEnd)
      modifies this`qcCalls, this`notices, this`refFileItems, this`pageUpdates
      ensures var r := RunQc(runAllFiles, filtered, currentFileId, selectedRoutines, optionsOf, outcome);
              end == r.end && qcCalls == old(qcCalls) + r.calls && notices == old(notices) + r.notices
      ensures end == Next ==> pageUpdates == old(pageUpdates) + 1 && refFileItems == RefFiles(loaded, AllowedCompareFiles)
      ensures end != Next ==> pageUpdates == old(pageUpdates) && refFileItems == old(refFileItems)
    {
      var files: seq<String>;
      if runAllFiles {
        files := filtered;
      } else {
        if currentFileId == [] {
          notices := notices + [Information("No file selected", [])];
          return Stopped;
        }
        files := [currentFileId];
      }
      var r := RunQcLoop(files, selectedRoutines, optionsOf, outcome);
      qcCalls := qcCalls + r.calls;
      end := r.end;
      if end != Next {
        notices := notices + r.notices;
        return;
      }
      UpdatePage(loaded);
      AppendAssociative(old(notices), r.notices, [QcSummary(|files|, selectedRoutines)]);
      notices := notices + r.notices + [QcSummary(|files|, selectedRoutines)];
    }
  }
}
