/**
 * The plugin's main window: the user's stored directories and file-type
 * choices, the load panel (data file text, sampling type and settings file
 * choices, platform depth entry, load button, help line), the list of
 * loaded files, and the pages with their start-once bookkeeping.
 *
 * The GISMO session, the file dialogs and `os.path.isfile` are outside the
 * model: what they return is passed in (`outcome`, `filePaths`, `isFile`,
 * the session's listing of loaded files), and what is asked of the
 * session is recorded (`loadCalls`, `removedFileIds`).
 */
module AppShell {
  import opened Text
  import opened Maybe
  import opened Paths
  import opened SortedSets
  import opened Notices
  import opened FileLabels

  // -----------------------------------------------------------------------
  // Key-value stores of the user settings

  /** `store.setdefault(k, v)` on the store's contents: `k` is added with `v` unless it is there. */
  function WithDefault<K, V>(m: map<K, V>, k: K, v: V): (r: map<K, V>)
    ensures k in r && r[k] == (if k in m then m[k] else v)
    ensures forall k' :: k' in m ==> k' in r && (k' != k ==> r[k'] == m[k'])
    ensures forall k' :: k' in r ==> k' in m || k' == k
  {
    if k in m then m else m[k := v]
  }

  /** What `store.setdefault(k, v)` returns. */
  function ValueOrDefault<K, V>(m: map<K, V>, k: K, v: V): V {
    if k in m then m[k] else v
  }

  /** Calling `setdefault` again with the same key changes nothing and returns the same value. */
  lemma WithDefaultIdempotent<K, V>(m: map<K, V>, k: K, v: V, w: V)
    ensures WithDefault(WithDefault(m, k, v), k, w) == WithDefault(m, k, v)
    ensures ValueOrDefault(WithDefault(m, k, v), k, w) == ValueOrDefault(m, k, v)
  {
  }

  // -----------------------------------------------------------------------
  // Open directories, one per sampling type

  const OpenDirectoryPrefix: String := "open_directory_"

  /**
   * The user-path key of the directory a dialog opens in: "open_directory"
   * without a suffix, else "open_directory_" and the suffix with its spaces
   * turned into underscores. An empty suffix counts as none.
   */
  function OpenDirectoryKey(suffix: String): (k: String)
    ensures suffix == [] ==> k == "open_directory"
    ensures suffix != [] ==> OpenDirectoryPrefix <= k && |k| == |OpenDirectoryPrefix| + |suffix|
    ensures suffix != [] ==> forall i :: 0 <= i < |suffix| ==>
              k[|OpenDirectoryPrefix| + i] == (if suffix[i] == ' ' then '_' else suffix[i])
  {
    if suffix == [] then "open_directory"
    else OpenDirectoryPrefix + ReplaceChar(suffix, ' ', '_')
  }

  /** Two suffixes without underscores share a key only when they are equal. */
  lemma OpenDirectoryKeyInjective(a: String, b: String)
    requires '_' !in a && '_' !in b
    requires OpenDirectoryKey(a) == OpenDirectoryKey(b)
    ensures a == b
  {
    if a != [] && b != [] {
      var n := |OpenDirectoryPrefix|;
      forall i | 0 <= i < |a| ensures a[i] == b[i] {
        assert a[i] in a && b[i] in b;
        assert OpenDirectoryKey(a)[n + i] == OpenDirectoryKey(b)[n + i];
      }
    }
  }

  /** A suffix with a space and the same suffix with an underscore share one directory. */
  lemma OpenDirectoryKeyShared()
    ensures OpenDirectoryKey("CTD DV") == OpenDirectoryKey("CTD_DV")
  {
  }

  /** `get_open_directory(suffix)` on the user paths: the stored directory, or the input directory. */
  function OpenDirectoryOf(paths: map<String, String>, suffix: String, inputDirectory: String): String {
    ValueOrDefault(paths, OpenDirectoryKey(suffix), inputDirectory)
  }

  /** The user paths after `set_open_directory(directory, suffix)`; a file is replaced by its directory. */
  function StoreOpenDirectory(paths: map<String, String>, directory: String, suffix: String, isFile: bool)
    : (r: map<String, String>)
    ensures forall k :: k in r <==> k in paths || k == OpenDirectoryKey(suffix)
  {
    paths[OpenDirectoryKey(suffix) := if isFile then Dirname(directory) else directory]
  }

  /**
   * After storing a directory for a suffix, asking for that suffix gives
   * it back (the directory of a file), and every suffix with another key
   * is unaffected.
   */
  lemma OpenDirectoryRoundTrip(paths: map<String, String>, directory: String, suffix: String,
                               isFile: bool, inputDirectory: String, other: String)
    requires OpenDirectoryKey(other) != OpenDirectoryKey(suffix)
    ensures OpenDirectoryOf(StoreOpenDirectory(paths, directory, suffix, isFile), suffix, inputDirectory)
         == if isFile then Dirname(directory) else directory
    ensures OpenDirectoryOf(StoreOpenDirectory(paths, directory, suffix, isFile), other, inputDirectory)
         == OpenDirectoryOf(paths, other, inputDirectory)
  {
  }

  // -----------------------------------------------------------------------
  // The data file text: several chosen files in one string and back

  /** Whether the file dialog's chosen file `name` is kept for sampling type `st`. */
  predicate KeepsFile(st: String, name: String) {
    !(st == "CTD DV" && !StartsWith(name, "ctd_profile_"))
    && !(st == "CTD NODC" && !StartsWith(name, "nodc_ctd_profile_"))
  }

  /** The chosen paths whose file names are kept, in the order chosen. */
  function KeptPaths(st: String, paths: seq<String>): (r: seq<String>)
    ensures |r| <= |paths|
  {
    if paths == [] then []
    else
      var init := KeptPaths(st, paths[..|paths| - 1]);
      var last := paths[|paths| - 1];
      if KeepsFile(st, Basename(last)) then init + [last] else init
  }

  /** A path is kept exactly when it was chosen and its file name is kept. */
  lemma {:induction false} KeptPathsMembers(st: String, paths: seq<String>)
    ensures forall p :: p in KeptPaths(st, paths) <==> p in paths && KeepsFile(st, Basename(p))
  {
    if paths != [] {
      var init := paths[..|paths| - 1];
      KeptPathsMembers(st, init);
      assert paths == init + [paths[|paths| - 1]];
    }
  }

  /** When every chosen file name is kept, nothing is dropped. */
  lemma {:induction false} KeptPathsAll(st: String, paths: seq<String>)
    requires forall i :: 0 <= i < |paths| ==> KeepsFile(st, Basename(paths[i]))
    ensures KeptPaths(st, paths) == paths
  {
    if paths != [] {
      var init := paths[..|paths| - 1];
      KeptPathsAll(st, init);
      assert paths == init + [paths[|paths| - 1]];
    }
  }

  /** The entries shown for the kept paths: the first one in full, the others by file name. */
  function ShownEntries(kept: seq<String>): (r: seq<String>)
    ensures |r| == |kept|
  {
    if |kept| <= 1 then kept else ShownEntries(kept[..|kept| - 1]) + [Basename(kept[|kept| - 1])]
  }

  /** The first kept path is shown in full, every later one by its file name. */
  lemma {:induction false} ShownEntriesAt(kept: seq<String>)
    ensures kept != [] ==> ShownEntries(kept)[0] == kept[0]
    ensures forall i :: 0 < i < |kept| ==> ShownEntries(kept)[i] == Basename(kept[i])
  {
    if |kept| > 1 {
      var init := kept[..|kept| - 1];
      ShownEntriesAt(init);
      var r := ShownEntries(kept);
      assert r == ShownEntries(init) + [Basename(kept[|kept| - 1])];
      forall i | 0 <= i < |init|
        ensures r[i] == ShownEntries(init)[i] && init[i] == kept[i]
      {
      }
    }
  }

  /** Appending a kept path shows it in full if it is the first one and by its name otherwise. */
  lemma ShownEntriesAppend(kept: seq<String>, p: String)
    ensures ShownEntries(kept + [p]) == ShownEntries(kept) + [if kept == [] then p else Basename(p)]
  {
    if kept == [] {
      assert kept + [p] == [p];
    } else {
      assert (kept + [p])[..|kept|] == kept;
    }
  }

  /** The data-file text for the chosen paths: the shown entries joined with "; ". */
  function DataFileText(st: String, paths: seq<String>): String {
    Join(ShownEntries(KeptPaths(st, paths)), "; ")
  }

  /** Every entry after the first, stripped and joined to the first entry's directory. */
  function JoinedToDirectory(directory: String, pieces: seq<String>): (r: seq<String>)
    ensures |r| == |pieces|
    ensures forall i :: 0 <= i < |pieces| ==> r[i] == PathJoin(directory, Strip(pieces[i]))
  {
    if pieces == [] then []
    else
      [PathJoin(directory, Strip(pieces[0]))] + JoinedToDirectory(directory, pieces[1..])
  }

  /**
   * The files named by the data-file text: without a ';' the text itself;
   * otherwise the text is split on ';' and each entry stripped, the first
   * is kept and the others are joined to its directory.
   */
  function DataFileList(text: String): (r: seq<String>)
    ensures |r| >= 1
    ensures ';' !in text ==> r == [text]
    ensures ';' in text ==> |r| == |Split(text, ';')| && r[0] == Strip(Split(text, ';')[0])
    ensures ';' in text ==> forall i :: 1 <= i < |r| ==>
              r[i] == PathJoin(Dirname(r[0]), Strip(Split(text, ';')[i]))
  {
    if ';' !in text then [text]
    else
      var pieces := Split(text, ';');
      var first := Strip(pieces[0]);
      [first] + JoinedToDirectory(Dirname(first), pieces[1..])
  }

  /**
   * Entries without ';' or white space at their ends, joined with "; ",
   * are read back as the first entry followed by each later entry joined
   * to the first entry's directory.
   */
  lemma DataFileListOfJoin(entries: seq<String>)
    requires |entries| >= 1 && CleanEntries(entries)
    ensures |DataFileList(Join(entries, "; "))| == |entries|
    ensures DataFileList(Join(entries, "; "))[0] == entries[0]
    ensures forall i :: 1 <= i < |entries| ==>
              DataFileList(Join(entries, "; "))[i] == PathJoin(Dirname(entries[0]), entries[i])
  {
    assert "; " == [';'] + " ";
    var text := Join(entries, "; ");
    if |entries| == 1 {
      assert text == entries[0];
    } else {
      SplitJoinPadded(entries, ';', " ");
      JoinHoldsSeparator(entries, ';');
      assert AllSpace(" ") by { assert IsSpace(' '); }
      StripClean(entries[0]);
      forall i | 1 <= i < |entries| ensures Strip(Split(text, ';')[i]) == entries[i] {
        StripPadded(" ", entries[i]);
      }
    }
  }

  /**
   * Reading the data-file text back gives the chosen files again, when
   * they all lie in one directory, all are kept, the first path has no
   * white space at its ends, and no name holds ';', '/' or white space at
   * its ends.
   */
  lemma DataFileListOfText(st: String, directory: String, names: seq<String>)
    requires CanonicalDir(directory) && |names| >= 1
    requires forall i :: 0 <= i < |names| ==>
               '/' !in names[i] && ';' !in names[i] && NoEdgeSpace(names[i]) && KeepsFile(st, names[i])
    requires ';' !in directory && NoEdgeSpace(PathJoin(directory, names[0]))
    ensures DataFileList(DataFileText(st, FullPaths(directory, names))) == FullPaths(directory, names)
  {
    var paths := FullPaths(directory, names);
    var shown := ShownOfFullPaths(st, directory, names);
    DataFileListOfJoin(shown);
    var parsed := DataFileList(Join(shown, "; "));
    forall i | 0 <= i < |paths| ensures parsed[i] == paths[i] {
      if i == 0 {
        assert parsed[0] == shown[0];
      } else {
        assert parsed[i] == PathJoin(directory, names[i]);
      }
    }
    assert parsed == paths;
  }

  /** The text shown for files of one directory: the first path, then the bare names. */
  lemma ShownOfFullPaths(st: String, directory: String, names: seq<String>) returns (shown: seq<String>)
    requires CanonicalDir(directory) && |names| >= 1
    requires forall i :: 0 <= i < |names| ==>
               '/' !in names[i] && ';' !in names[i] && NoEdgeSpace(names[i]) && KeepsFile(st, names[i])
    requires ';' !in directory && NoEdgeSpace(PathJoin(directory, names[0]))
    ensures shown == ShownEntries(FullPaths(directory, names))
    ensures DataFileText(st, FullPaths(directory, names)) == Join(shown, "; ")
    ensures |shown| == |names| && shown[0] == PathJoin(directory, names[0])
    ensures Dirname(shown[0]) == directory
    ensures forall i :: 1 <= i < |names| ==> shown[i] == names[i]
    ensures CleanEntries(shown)
  {
    var paths := FullPaths(directory, names);
    forall i | 0 <= i < |names| ensures Basename(paths[i]) == names[i] && Dirname(paths[i]) == directory {
      DirnameBasenameOfJoin(directory, names[i]);
    }
    KeptPathsAll(st, paths);
    shown := ShownEntries(paths);
    ShownEntriesAt(paths);
    forall i | 0 <= i < |shown| ensures ';' !in shown[i] && NoEdgeSpace(shown[i]) {
      if i == 0 {
        PathJoinWithout(directory, names[0], ';');
      } else {
        assert shown[i] == names[i];
      }
    }
  }

  /** `[os.path.join(directory, n) for n in names]`. */
  function FullPaths(directory: String, names: seq<String>): (r: seq<String>)
    ensures |r| == |names|
    ensures forall i :: 0 <= i < |names| ==> r[i] == PathJoin(directory, names[i])
  {
    if names == [] then [] else [PathJoin(directory, names[0])] + FullPaths(directory, names[1..])
  }

  /** A character in neither part is not in their join. */
  lemma PathJoinWithout(a: String, b: String, c: char)
    requires c != '/' && c !in a && c !in b
    ensures c !in PathJoin(a, b)
  {
  }

  /** Joining two or more pieces puts the separator in. */
  lemma JoinHoldsSeparator(ps: seq<String>, sep: char)
    requires |ps| >= 2
    ensures sep in Join(ps, [sep] + " ")
  {
    var j := Join(ps, [sep] + " ");
    assert j == ps[0] + ([sep] + " ") + Join(ps[1..], [sep] + " ");
    assert j[|ps[0]|] == sep;
  }

  // -----------------------------------------------------------------------
  // Loading the listed files one by one

  /** How the session's `load_file` ends for one call. */
  datatype LoadOutcome =
    | Loaded
    | MissingPath(message: String)
    | MissingInputArgument(message: String)
    | InvalidParameter(message: String)
    | QcFieldError
    | Failure(message: String)

  /** One call of the session's `load_file`; `depth` is given only on the retry with the platform depth. */
  datatype LoadCall = LoadCall(samplingType: String, path: String, settingsFile: String, depth: Option<String>)

  /** Whether the load loop goes on with the next file, returns early, or an exception escapes it. */
  datatype LoadEnd = Next | Stopped | Raised

  /** What loading some files asks of the session, the boxes it pops up, the help line it leaves, and how it ends. */
  datatype LoadReport = LoadReport(calls: seq<LoadCall>, notices: seq<Notice>, help: String, end: LoadEnd)

  const TryAgainHelp: String := "Please try again with a different settings file."

  /** Loading one file, classified by what the session's call ends with. */
  function LoadStep(st: String, sf: String, path: String, outcome: LoadCall -> LoadOutcome, depth: String)
    : (r: LoadReport)
    ensures 1 <= |r.calls| <= 2 && r.calls[0] == LoadCall(st, path, sf, None)
    ensures |r.calls| == 2 ==> r.calls[1] == LoadCall(st, path, sf, Some(depth))
  {
    var first := LoadCall(st, path, sf, None);
    match outcome(first)
    case Loaded => LoadReport([first], [], [], Next)
    case MissingPath(m) => LoadReport([first], [Information("Invalid path", m)], TryAgainHelp, Next)
    case MissingInputArgument(m) =>
      if !Contains(m, "depth") then LoadReport([first], [], [], Next)
      else if depth == [] then LoadReport([first], [Information("No depth found!", [])], [], Stopped)
      else
        var retry := LoadCall(st, path, sf, Some(depth));
        LoadReport([first, retry], [], [], if outcome(retry).Loaded? then Next else Raised)
    case InvalidParameter(m) => LoadReport([first], [Information("Invalid parameter", m)], [], Stopped)
    case QcFieldError => LoadReport([first], [Error("QC field error", path)], [], Stopped)
    case Failure(m) => LoadReport([first], [InternalError(m)], [], Stopped)
  }

  /**
   * A file goes on to the next one exactly when it is loaded, its path is
   * missing, or an input argument other than the depth is missing, or the
   * depth is and the retry with a non-empty platform depth loads it.
   */
  lemma LoadStepGoesOn(st: String, sf: String, path: String, outcome: LoadCall -> LoadOutcome, depth: String)
    ensures LoadStep(st, sf, path, outcome, depth).end == Next <==>
              match outcome(LoadCall(st, path, sf, None))
              case Loaded => true
              case MissingPath(_) => true
              case MissingInputArgument(m) =>
                !Contains(m, "depth") || (depth != [] && outcome(LoadCall(st, path, sf, Some(depth))).Loaded?)
              case _ => false
  {
  }

  /**
   * A file is retried exactly when the session misses the depth and a
   * platform depth is given; an exception escapes the loop only from the retry.
   */
  lemma LoadStepRetries(st: String, sf: String, path: String, outcome: LoadCall -> LoadOutcome, depth: String)
    ensures var r := LoadStep(st, sf, path, outcome, depth);
            var first := outcome(LoadCall(st, path, sf, None));
            (|r.calls| == 2 <==> first.MissingInputArgument? && Contains(first.message, "depth") && depth != [])
            && (r.end == Raised ==> |r.calls| == 2)
  {
  }

  /** The first report, followed by the second one when the first goes on. */
  function Then(a: LoadReport, b: LoadReport): LoadReport {
    if a.end == Next then LoadReport(a.calls + b.calls, a.notices + b.notices, b.help, b.end) else a
  }

  /** Loading the files in order until one of them ends the loop. */
  function LoadLoop(st: String, sf: String, files: seq<String>, outcome: LoadCall -> LoadOutcome, depth: String)
    : LoadReport
  {
    if files == [] then LoadReport([], [], [], Next)
    else Then(LoadLoop(st, sf, files[..|files| - 1], outcome, depth),
              LoadStep(st, sf, files[|files| - 1], outcome, depth))
  }

  /** The paths of the first attempts among some calls, in order: retries are left out. */
  function FirstAttempts(calls: seq<LoadCall>): (r: seq<String>)
    ensures |r| <= |calls|
  {
    if calls == [] then []
    else (if calls[0].depth.None? then [calls[0].path] else []) + FirstAttempts(calls[1..])
  }

  lemma {:induction false} FirstAttemptsAppend(a: seq<LoadCall>, b: seq<LoadCall>)
    ensures FirstAttempts(a + b) == FirstAttempts(a) + FirstAttempts(b)
  {
    if a != [] {
      assert (a + b)[1..] == a[1..] + b;
      FirstAttemptsAppend(a[1..], b);
    } else {
      assert a + b == b;
    }
  }

  /** Each file is tried once for itself; a retry carries the depth. */
  lemma FirstAttemptsOfStep(st: String, sf: String, path: String, outcome: LoadCall -> LoadOutcome, depth: String)
    ensures FirstAttempts(LoadStep(st, sf, path, outcome, depth).calls) == [path]
  {
    var calls := LoadStep(st, sf, path, outcome, depth).calls;
    if |calls| == 2 {
      assert calls[1..][1..] == [];
    }
  }

  /** The loop gets through all files exactly when every one of them goes on. */
  lemma {:induction false} LoadLoopGoesOn(st: String, sf: String, files: seq<String>,
                                          outcome: LoadCall -> LoadOutcome, depth: String)
    ensures LoadLoop(st, sf, files, outcome, depth).end == Next
        <==> forall i :: 0 <= i < |files| ==> LoadStep(st, sf, files[i], outcome, depth).end == Next
  {
    if files != [] {
      var init := files[..|files| - 1];
      LoadLoopGoesOn(st, sf, init, outcome, depth);
      assert forall i :: 0 <= i < |init| ==> init[i] == files[i];
      if LoadLoop(st, sf, init, outcome, depth).end != Next {
        assert !(forall i :: 0 <= i < |files| ==> LoadStep(st, sf, files[i], outcome, depth).end == Next) by {
          var i :| 0 <= i < |init| && LoadStep(st, sf, init[i], outcome, depth).end != Next;
          assert files[i] == init[i];
        }
      }
    }
  }

  /** When the loop gets through, each file was tried once for itself, in the order listed. */
  lemma {:induction false} LoadLoopTriesAll(st: String, sf: String, files: seq<String>,
                                            outcome: LoadCall -> LoadOutcome, depth: String)
    ensures LoadLoop(st, sf, files, outcome, depth).end == Next ==>
              FirstAttempts(LoadLoop(st, sf, files, outcome, depth).calls) == files
  {
    if files != [] {
      var init := files[..|files| - 1];
      var last := files[|files| - 1];
      var a := LoadLoop(st, sf, init, outcome, depth);
      if a.end == Next {
        LoadLoopTriesAll(st, sf, init, outcome, depth);
        var b := LoadStep(st, sf, last, outcome, depth);
        FirstAttemptsAppend(a.calls, b.calls);
        FirstAttemptsOfStep(st, sf, last, outcome, depth);
        assert files == init + [last];
      }
    }
  }

  /** Every call of the loop is made with the chosen sampling type and settings file. */
  lemma {:induction false} LoadLoopCalls(st: String, sf: String, files: seq<String>,
                                         outcome: LoadCall -> LoadOutcome, depth: String)
    ensures forall c :: c in LoadLoop(st, sf, files, outcome, depth).calls ==>
              c.samplingType == st && c.settingsFile == sf
  {
    if files != [] {
      LoadLoopCalls(st, sf, files[..|files| - 1], outcome, depth);
    }
  }

  /** Loading one more file of the list adds its step to the loop. */
  lemma LoadLoopExtend(st: String, sf: String, files: seq<String>,
                       outcome: LoadCall -> LoadOutcome, depth: String, k: nat)
    requires k < |files|
    ensures LoadLoop(st, sf, files[..k + 1], outcome, depth)
         == Then(LoadLoop(st, sf, files[..k], outcome, depth), LoadStep(st, sf, files[k], outcome, depth))
  {
    assert files[..k + 1][..k] == files[..k];
  }

  /** When the `k`-th file ends the loop after all earlier ones went on, no later file is tried. */
  lemma {:induction false} LoadLoopStopsAt(st: String, sf: String, files: seq<String>,
                                           outcome: LoadCall -> LoadOutcome, depth: String, k: nat)
    requires k < |files|
    requires LoadLoop(st, sf, files[..k], outcome, depth).end == Next
    requires LoadStep(st, sf, files[k], outcome, depth).end != Next
    ensures LoadLoop(st, sf, files, outcome, depth) == LoadLoop(st, sf, files[..k + 1], outcome, depth)
    ensures LoadLoop(st, sf, files, outcome, depth).end != Next
  {
    if |files| == k + 1 {
      assert files[..k + 1] == files;
    } else {
      var init := files[..|files| - 1];
      assert init[..k] == files[..k] && init[k] == files[k] && init[..k + 1] == files[..k + 1];
      LoadLoopStopsAt(st, sf, init, outcome, depth, k);
    }
  }

  // -----------------------------------------------------------------------
  // Pages

  /** The pages in the order they are registered. */
  const AllPages: seq<String> :=
    ["PageStart", "PageTimeSeries", "PageMetadata", "PageProfile", "PageSamplingTypeSettings", "PageUser"]

  /**
   * The page class `show_frame` makes active: the module-level loop that
   * builds the page-to-name table leaves its loop variable bound to the
   * last registered page.
   */
  const LastRegisteredPage: String := "PageUser"

  /** The pages `update_all` updates: the registered pages that were started, in registration order. */
  function Filter(ps: seq<String>, keep: set<String>): (r: seq<String>)
    ensures |r| <= |ps|
  {
    if ps == [] then []
    else
      var last := ps[|ps| - 1];
      Filter(ps[..|ps| - 1], keep) + (if last in keep then [last] else [])
  }

  /** Exactly the started pages among the registered ones are updated. */
  lemma {:induction false} FilterMembers(ps: seq<String>, keep: set<String>)
    ensures forall p :: p in Filter(ps, keep) <==> p in ps && p in keep
  {
    if ps != [] {
      var init := ps[..|ps| - 1];
      FilterMembers(init, keep);
      assert ps == init + [ps[|ps| - 1]];
    }
  }

  /** Each page is updated at most once, when the registered pages are distinct. */
  lemma {:induction false} FilterNoDuplicates(ps: seq<String>, keep: set<String>)
    requires NoDuplicates(ps)
    ensures NoDuplicates(Filter(ps, keep))
  {
    if ps != [] {
      var init := ps[..|ps| - 1];
      var last := ps[|ps| - 1];
      assert NoDuplicates(init) by {
        forall i, j | 0 <= i < j < |init| ensures init[i] != init[j] {
          assert init[i] == ps[i] && init[j] == ps[j];
        }
      }
      FilterNoDuplicates(init, keep);
      FilterMembers(init, keep);
      assert last !in init by {
        forall i | 0 <= i < |init| ensures init[i] != last {
          assert init[i] == ps[i];
        }
      }
    }
  }

  /** The loaded-files list: a `"<sampling type>: <file id>"` label per file, sampling type by sampling type. */
  function LoadedLabels(view: seq<(String, seq<String>)>): (r: seq<String>)
    ensures |r| == |LoadedIds(view)|
  {
    if view == [] then []
    else
      var last := view[|view| - 1];
      LoadedLabels(view[..|view| - 1]) + LabelsFor(last.0, last.1)
  }

  /** The labels of the files of one sampling type. */
  function LabelsFor(st: String, ids: seq<String>): (r: seq<String>)
    ensures |r| == |ids|
  {
    if ids == [] then [] else LabelsFor(st, ids[..|ids| - 1]) + [Label(st, ids[|ids| - 1])]
  }

  /** All file ids of the session's listing, in the listing's order. */
  function LoadedIds(view: seq<(String, seq<String>)>): seq<String> {
    if view == [] then [] else LoadedIds(view[..|view| - 1]) + view[|view| - 1].1
  }

  /** No file id of the listing holds a colon or has white space at its ends. */
  predicate CleanIds(view: seq<(String, seq<String>)>) {
    forall i, j :: 0 <= i < |view| && 0 <= j < |view[i].1| ==> ':' !in view[i].1[j] && NoEdgeSpace(view[i].1[j])
  }

  /** The file ids taken from a list of labels. */
  function FileIdsOf(labels: seq<String>): (r: seq<String>)
    ensures |r| == |labels|
  {
    if labels == [] then [] else FileIdsOf(labels[..|labels| - 1]) + [FileIdOf(labels[|labels| - 1])]
  }

  lemma {:induction false} FileIdsOfAppend(a: seq<String>, b: seq<String>)
    ensures FileIdsOf(a + b) == FileIdsOf(a) + FileIdsOf(b)
  {
    if b == [] {
      assert a + b == a;
    } else {
      var n := |b| - 1;
      assert (a + b)[..|a + b| - 1] == a + b[..n];
      assert (a + b)[|a + b| - 1] == b[n];
      FileIdsOfAppend(a, b[..n]);
    }
  }

  /** The labels of one sampling type give back its file ids. */
  lemma {:induction false} FileIdsOfLabelsFor(st: String, ids: seq<String>)
    requires forall j :: 0 <= j < |ids| ==> ':' !in ids[j] && NoEdgeSpace(ids[j])
    ensures FileIdsOf(LabelsFor(st, ids)) == ids
  {
    if ids != [] {
      var n := |ids| - 1;
      var front := LabelsFor(st, ids[..n]);
      var x := front + [Label(st, ids[n])];
      assert x[..|x| - 1] == front;
      FileIdsOfLabelsFor(st, ids[..n]);
      FileIdOfLabel(st, ids[n]);
      assert ids[..n] + [ids[n]] == ids;
    }
  }

  /**
   * Taking the file id of every label of the loaded-files list gives back
   * the session's file ids, in order, as long as no id holds a colon or
   * white space at its ends.
   */
  lemma {:induction false} FileIdsOfLoadedLabels(view: seq<(String, seq<String>)>)
    requires CleanIds(view)
    ensures FileIdsOf(LoadedLabels(view)) == LoadedIds(view)
  {
    if view != [] {
      var n := |view| - 1;
      var st, ids := view[n].0, view[n].1;
      FileIdsOfAppend(LoadedLabels(view[..n]), LabelsFor(st, ids));
      assert CleanIds(view[..n]) by {
        forall i, j | 0 <= i < n && 0 <= j < |view[..n][i].1|
          ensures ':' !in view[..n][i].1[j] && NoEdgeSpace(view[..n][i].1[j])
        {
          assert view[..n][i] == view[i];
        }
      }
      FileIdsOfLoadedLabels(view[..n]);
      FileIdsOfLabelsFor(st, ids);
    }
  }

  // -----------------------------------------------------------------------
  // The main window

  class App {
    /** `user.path`: the stored directories. */
    var userPath: map<String, String>
    /** `user.file_type`: per sampling type, the stored 'sampling_type' and 'settings_file' choices. */
    var userFileType: map<(String, String), String>
    /** `user.sampling_depth`: the platform depth stored per file-id prefix. */
    var userSamplingDepth: map<String, String>
    /** `settings['directory']['Input directory']`. */
    const inputDirectory: String
    const userName: String

    var dataFileText: String
    var samplingTypeChoice: String
    var settingsFileChoice: String
    var latestLoadedSamplingType: String
    var platformDepth: String
    var platformDepthEnabled: bool
    var loadButtonEnabled: bool
    var help: String
    var notices: seq<Notice>
    var loadCalls: seq<LoadCall>
    var loadedFiles: seq<String>
    var removedFileIds: seq<String>

    /** The names of the page frames, in the order they were registered. */
    const frameNames: seq<String>
    var pagesStarted: set<String>
    /** The pages whose `startup` ran, in order. */
    var startups: seq<String>
    /** The pages each `update_all` updated, one entry per call. */
    var pageUpdates: seq<seq<String>>
    var activePage: Option<String>
    var previousPage: Option<String>

    /**
     * `__init__` and `startup` up to the closing `show_frame('PageStart')`:
     * the user's stores are those `main_app.user` holds from earlier
     * sessions, and everything else starts empty or disabled.
     */
    constructor (inputDirectory: String, userName: String, storedPaths: map<String, String>,
                 storedFileTypes: map<(String, String), String>, storedDepths: map<String, String>)
      ensures this.inputDirectory == inputDirectory && this.userName == userName
      ensures frameNames == AllPages
      ensures userPath == storedPaths && userFileType == storedFileTypes && userSamplingDepth == storedDepths
      ensures dataFileText == [] && latestLoadedSamplingType == [] && help == []
      ensures notices == [] && loadCalls == [] && loadedFiles == [] && removedFileIds == []
      ensures pagesStarted == {} && startups == [] && pageUpdates == []
      ensures activePage == None && previousPage == None
      ensures samplingTypeChoice == [] && settingsFileChoice == [] && platformDepth == []
      ensures !platformDepthEnabled && !loadButtonEnabled
    {
      this.inputDirectory := inputDirectory;
      this.userName := userName;
      frameNames := AllPages;
      userPath, userFileType, userSamplingDepth := storedPaths, storedFileTypes, storedDepths;
      dataFileText, samplingTypeChoice, settingsFileChoice := [], [], [];
      latestLoadedSamplingType, platformDepth, help := [], [], [];
      platformDepthEnabled, loadButtonEnabled := false, false;
      notices, loadCalls, loadedFiles, removedFileIds := [], [], [], [];
      pagesStarted, startups, pageUpdates := {}, [], [];
      activePage, previousPage := None, None;
    }

    /** Every page was started once, when it was first shown. */
    ghost predicate PagesConsistent()
      reads this`pagesStarted, this`startups
    {
      NoDuplicates(startups) && (forall p :: p in pagesStarted <==> p in startups)
    }

    method GetOpenDirectory(suffix: String) returns (directory: String)
      modifies this`userPath
      ensures directory == OpenDirectoryOf(old(userPath), suffix, inputDirectory)
      ensures userPath == WithDefault(old(userPath), OpenDirectoryKey(suffix), inputDirectory)
    {
      var key := OpenDirectoryKey(suffix);
      userPath := WithDefault(userPath, key, inputDirectory);
      directory := userPath[key];
    }

    /** `isFile` is what `os.path.isfile(directory)` says. */
    method SetOpenDirectory(directory: String, suffix: String, isFile: bool)
      modifies this`userPath
      ensures userPath == StoreOpenDirectory(old(userPath), directory, suffix, isFile)
    {
      var d := directory;
      if isFile {
        d := Dirname(directory);
      }
      userPath := userPath[OpenDirectoryKey(suffix) := d];
    }

    /**
     * The chosen data files of sampling type `st`, as the file dialog
     * returns them, none of them empty; `isFile` tells whether the first
     * one is a file.
     */
    method GetDataFilePaths(st: String, filePaths: seq<String>, isFile: bool)
      requires forall i :: 0 <= i < |filePaths| ==> filePaths[i] != []
      modifies this`userPath, this`samplingTypeChoice, this`dataFileText, this`latestLoadedSamplingType,
               this`userFileType, this`settingsFileChoice, this`notices, this`platformDepth,
               this`platformDepthEnabled, this`userSamplingDepth, this`loadButtonEnabled
      ensures filePaths == [] ==>
                userPath == WithDefault(old(userPath), OpenDirectoryKey(st), inputDirectory)
                && samplingTypeChoice == old(samplingTypeChoice) && dataFileText == old(dataFileText)
                && latestLoadedSamplingType == old(latestLoadedSamplingType)
                && userFileType == old(userFileType) && settingsFileChoice == old(settingsFileChoice)
                && notices == old(notices) && platformDepth == old(platformDepth)
                && platformDepthEnabled == old(platformDepthEnabled)
                && userSamplingDepth == old(userSamplingDepth) && loadButtonEnabled == old(loadButtonEnabled)
      ensures filePaths != [] ==>
                userPath == StoreOpenDirectory(WithDefault(old(userPath), OpenDirectoryKey(st), inputDirectory),
                                               filePaths[0], st, isFile)
                && dataFileText == DataFileText(st, filePaths)
                && latestLoadedSamplingType == st && loadButtonEnabled
                && SettingsChosen(st, filePaths[0], old(userFileType), old(userSamplingDepth), old(notices), st,
                                  old(settingsFileChoice))
    {
      var _ := GetOpenDirectory(st);
      if filePaths != [] {
        SetOpenDirectory(filePaths[0], st, isFile);
        samplingTypeChoice := st;
        dataFileText := DataFileTextOf(st, filePaths);
        SetSettings(st, filePaths[0]);
      }
    }

    /** The state `_set_settings(st, path)` leaves for a non-empty path, given the stores it started from. */
    ghost predicate SettingsChosen(st: String, path: String, fileTypes: map<(String, String), String>,
                                   depths: map<String, String>, oldNotices: seq<Notice>,
                                   typeBefore: String, fileBefore: String)
      reads this`userFileType, this`samplingTypeChoice, this`settingsFileChoice, this`notices,
            this`platformDepth, this`platformDepthEnabled, this`userSamplingDepth
    {
      ChoicesApplied(st, fileTypes, typeBefore, fileBefore)
      && notices == oldNotices + [Information("Data file selected", userName)]
      && DepthOffered(st, path, depths)
    }

    /**
     * The stored sampling type and settings file of `st` are chosen where
     * they are not empty, and both are stored, empty, where they were missing.
     */
    ghost predicate ChoicesApplied(st: String, fileTypes: map<(String, String), String>,
                                   typeBefore: String, fileBefore: String)
      reads this`userFileType, this`samplingTypeChoice, this`settingsFileChoice
    {
      var storedType := ValueOrDefault(fileTypes, (st, "sampling_type"), []);
      var withType := WithDefault(fileTypes, (st, "sampling_type"), []);
      var storedFile := ValueOrDefault(withType, (st, "settings_file"), []);
      userFileType == WithDefault(withType, (st, "settings_file"), [])
      && samplingTypeChoice == (if storedType != [] then storedType else typeBefore)
      && settingsFileChoice == (if storedFile != [] then storedFile else fileBefore)
    }

    /**
     * A platform depth is offered exactly for fixed platforms: the one
     * stored for the first ten characters of the file name, "1" (and
     * stored) when there is none; otherwise the entry is cleared.
     */
    ghost predicate DepthOffered(st: String, path: String, depths: map<String, String>)
      reads this`platformDepth, this`platformDepthEnabled, this`userSamplingDepth
    {
      var fixed := Contains(LowerAscii(st), "fixed platform");
      var prefix := TakePrefix(Basename(path), 10);
      platformDepthEnabled == fixed
      && platformDepth == (if fixed then ValueOrDefault(depths, prefix, "1") else [])
      && userSamplingDepth == (if fixed then WithDefault(depths, prefix, "1") else depths)
    }

    /**
     * Settings for a chosen data file: with a path, the stored choices for
     * the sampling type are applied (stored empty when there are none),
     * a platform depth is offered exactly for fixed platforms and the
     * load button is enabled; without a path the button and the depth
     * entry are disabled and the depth cleared.
     */
    method SetSettings(st: String, path: String)
      modifies this`latestLoadedSamplingType, this`userFileType, this`samplingTypeChoice,
               this`settingsFileChoice, this`notices, this`platformDepth, this`platformDepthEnabled,
               this`userSamplingDepth, this`loadButtonEnabled
      ensures path != [] ==>
                latestLoadedSamplingType == st && loadButtonEnabled
                && SettingsChosen(st, path, old(userFileType), old(userSamplingDepth), old(notices),
                                  old(samplingTypeChoice), old(settingsFileChoice))
      ensures path == [] ==>
                !loadButtonEnabled && platformDepth == [] && !platformDepthEnabled
                && latestLoadedSamplingType == old(latestLoadedSamplingType)
                && userFileType == old(userFileType) && samplingTypeChoice == old(samplingTypeChoice)
                && settingsFileChoice == old(settingsFileChoice) && notices == old(notices)
                && userSamplingDepth == old(userSamplingDepth)
    {
      if path != [] {
        latestLoadedSamplingType := st;
        ApplyStoredChoices(st);
        notices := notices + [Information("Data file selected", userName)];
        OfferDepth(st, path);
        loadButtonEnabled := true;
      } else {
        loadButtonEnabled := false;
        platformDepth := [];
        platformDepthEnabled := false;
      }
    }

    /** The sampling-type and settings-file part of `_set_settings`. */
    method ApplyStoredChoices(st: String)
      modifies this`userFileType, this`samplingTypeChoice, this`settingsFileChoice
      ensures ChoicesApplied(st, old(userFileType), old(samplingTypeChoice), old(settingsFileChoice))
    {
      var sType := ValueOrDefault(userFileType, (st, "sampling_type"), []);
      userFileType := WithDefault(userFileType, (st, "sampling_type"), []);
      if sType != [] {
        samplingTypeChoice := sType;
      }
      var sFile := ValueOrDefault(userFileType, (st, "settings_file"), []);
      userFileType := WithDefault(userFileType, (st, "settings_file"), []);
      if sFile != [] {
        settingsFileChoice := sFile;
      }
    }

    /** The platform-depth part of `_set_settings`. */
    method OfferDepth(st: String, path: String)
      modifies this`platformDepth, this`platformDepthEnabled, this`userSamplingDepth
      ensures DepthOffered(st, path, old(userSamplingDepth))
    {
      if Contains(LowerAscii(st), "fixed platform") {
        platformDepthEnabled := true;
        var tempFileId := TakePrefix(Basename(path), 10);
        var depth := ValueOrDefault(userSamplingDepth, tempFileId, "1");
        userSamplingDepth := WithDefault(userSamplingDepth, tempFileId, "1");
        platformDepth := depth;
      } else {
        platformDepth := [];
        platformDepthEnabled := false;
      }
    }

    /** Stores the chosen sampling type and settings file for the latest loaded sampling type. */
    method SaveTypeAndFile()
      modifies this`userFileType
      ensures latestLoadedSamplingType == [] ==> userFileType == old(userFileType)
      ensures latestLoadedSamplingType != [] ==>
                userFileType == StoreIfGiven(StoreIfGiven(old(userFileType), (latestLoadedSamplingType, "sampling_type"),
                                                          samplingTypeChoice),
                                             (latestLoadedSamplingType, "settings_file"), settingsFileChoice)
    {
      if latestLoadedSamplingType == [] {
        return;
      }
      if samplingTypeChoice != [] {
        userFileType := userFileType[(latestLoadedSamplingType, "sampling_type") := samplingTypeChoice];
      }
      if settingsFileChoice != [] {
        userFileType := userFileType[(latestLoadedSamplingType, "settings_file") := settingsFileChoice];
      }
    }

    /**
     * Loads the files named by the data-file text with the chosen sampling
     * type and settings file. `settingsPath` is the settings file's path
     * (empty when there is none), `outcome` how each session call ends,
     * and `listing` the session's sampling types with their file ids once
     * the files are loaded.
     */
    method LoadFile(settingsPath: String, outcome: LoadCall -> LoadOutcome, listing: seq<(String, seq<String>)>)
      returns (end: LoadEnd)
      modifies this`help, this`loadButtonEnabled, this`loadCalls, this`notices, this`dataFileText,
               this`loadedFiles, this`pageUpdates
      ensures old(dataFileText) == [] || settingsPath == [] ==>
                end == Stopped && help == "No file selected!"
                && loadButtonEnabled == old(loadButtonEnabled) && loadCalls == old(loadCalls)
                && notices == old(notices) && dataFileText == old(dataFileText)
                && loadedFiles == old(loadedFiles) && pageUpdates == old(pageUpdates)
      ensures old(dataFileText) != [] && settingsPath != [] ==>
                var r := LoadLoop(samplingTypeChoice, settingsFileChoice, DataFileList(old(dataFileText)),
                                  outcome, platformDepth);
                end == r.end && Recorded(r, old(loadCalls), old(notices))
                && (end == Next ==> Finished(listing, old(pageUpdates)))
                && (end != Next ==>
                      dataFileText == old(dataFileText) && loadedFiles == old(loadedFiles)
                      && pageUpdates == old(pageUpdates) && !loadButtonEnabled && help == r.help)
    {
      help := [];
      if dataFileText == [] || settingsPath == [] {
        help := "No file selected!";
        return Stopped;
      }
      end := LoadListed(outcome, listing);
    }

    /** `_load_file` past its check that a data file and a settings file are chosen. */
    method LoadListed(outcome: LoadCall -> LoadOutcome, listing: seq<(String, seq<String>)>) returns (end: LoadEnd)
      modifies this`help, this`loadButtonEnabled, this`loadCalls, this`notices, this`dataFileText,
               this`loadedFiles, this`pageUpdates
      ensures var r := LoadLoop(samplingTypeChoice, settingsFileChoice, DataFileList(old(dataFileText)),
                                outcome, platformDepth);
              end == r.end && Recorded(r, old(loadCalls), old(notices))
              && (end == Next ==> Finished(listing, old(pageUpdates)))
              && (end != Next ==>
                    dataFileText == old(dataFileText) && loadedFiles == old(loadedFiles)
                    && pageUpdates == old(pageUpdates) && !loadButtonEnabled && help == r.help)
    {
      var files := ParseDataFileList(dataFileText);
      var r := LoadFiles(samplingTypeChoice, settingsFileChoice, files, outcome, platformDepth);
      Record(r);
      end := r.end;
      if end == Next {
        FinishLoad(listing);
      }
    }

    /** What the loop leaves behind: its calls and boxes recorded, its help line shown and the load button disabled. */
    method Record(r: LoadReport)
      modifies this`loadCalls, this`notices, this`help, this`loadButtonEnabled
      ensures Recorded(r, old(loadCalls), old(notices)) && help == r.help && !loadButtonEnabled
    {
      loadCalls, notices, help := loadCalls + r.calls, notices + r.notices, r.help;
      loadButtonEnabled := false;
    }

    /** The session was asked for the calls of `r` and the boxes of `r` popped up, after the ones before. */
    ghost predicate Recorded(r: LoadReport, callsBefore: seq<LoadCall>, noticesBefore: seq<Notice>)
      reads this`loadCalls, this`notices
    {
      loadCalls == callsBefore + r.calls && notices == noticesBefore + r.notices
    }

    /**
     * The state after all files are loaded: the data-file text cleared,
     * the loaded-files list rebuilt from the session, the started pages
     * updated once more, the load button enabled and the help line set.
     */
    ghost predicate Finished(listing: seq<(String, seq<String>)>, updatesBefore: seq<seq<String>>)
      reads this`dataFileText, this`loadedFiles, this`pageUpdates, this`pagesStarted,
            this`loadButtonEnabled, this`help
    {
      dataFileText == [] && loadedFiles == LoadedLabels(listing)
      && pageUpdates == updatesBefore + [Filter(frameNames, pagesStarted)]
      && loadButtonEnabled && help == "File loaded! Please continue."
    }

    /** The end of `_load_file` once every file went on. */
    method FinishLoad(listing: seq<(String, seq<String>)>)
      modifies this`dataFileText, this`loadedFiles, this`pageUpdates, this`loadButtonEnabled, this`help
      ensures Finished(listing, old(pageUpdates))
    {
      dataFileText := [];
      UpdateLoadedFilesWidget(listing);
      UpdateAll();
      loadButtonEnabled := true;
      help := "File loaded! Please continue.";
    }

    /** The loaded-files list, rebuilt from the session's listing. */
    method UpdateLoadedFilesWidget(listing: seq<(String, seq<String>)>)
      modifies this`loadedFiles
      ensures loadedFiles == LoadedLabels(listing)
    {
      loadedFiles := LoadedLabelsOf(listing);
    }

    /** Removes the file of a loaded-files label from the session and updates the started pages. */
    method DeleteSource(entry: String)
      modifies this`removedFileIds, this`pageUpdates
      ensures removedFileIds == old(removedFileIds) + [FileIdOf(entry)]
      ensures pageUpdates == old(pageUpdates) + [Filter(frameNames, pagesStarted)]
    {
      removedFileIds := removedFileIds + [FileIdOf(entry)];
      UpdateAll();
    }

    /** Updates every started page, in registration order. */
    method UpdateAll()
      modifies this`pageUpdates
      ensures pageUpdates == old(pageUpdates) + [Filter(frameNames, pagesStarted)]
    {
      var updated := FilterPages(frameNames, pagesStarted);
      pageUpdates := pageUpdates + [updated];
    }

    /**
     * Shows page `name`, starting it first if it was never shown; an
     * unknown name is a `KeyError` and changes nothing. The page then
     * made active is the last registered one, and all started pages are
     * updated.
     */
    method ShowFrame(name: String) returns (found: bool)
      requires PagesConsistent()
      modifies this`pagesStarted, this`startups, this`activePage, this`previousPage, this`pageUpdates
      ensures PagesConsistent()
      ensures found <==> name in frameNames
      ensures !found ==>
                pagesStarted == old(pagesStarted) && startups == old(startups)
                && activePage == old(activePage) && previousPage == old(previousPage)
                && pageUpdates == old(pageUpdates)
      ensures found ==>
                pagesStarted == old(pagesStarted) + {name}
                && startups == old(startups) + (if name in old(pagesStarted) then [] else [name])
                && previousPage == old(activePage) && activePage == Some(LastRegisteredPage)
                && pageUpdates == old(pageUpdates) + [Filter(frameNames, pagesStarted)]
    {
      if name !in frameNames {
        return false;
      }
      if name !in pagesStarted {
        startups := startups + [name];
        pagesStarted := pagesStarted + {name};
      }
      previousPage := activePage;
      activePage := Some(LastRegisteredPage);
      UpdateAll();
      found := true;
    }
  }

  /** Storing `v` under `k` unless it is empty, as `_save_type_and_file` does for each choice. */
  function StoreIfGiven(m: map<(String, String), String>, k: (String, String), v: String)
    : (r: map<(String, String), String>)
    ensures v == [] ==> r == m
    ensures v != [] ==> k in r && r[k] == v
    ensures forall k' :: k' != k ==> (k' in r <==> k' in m) && (k' in m ==> r[k'] == m[k'])
  {
    if v == [] then m else m[k := v]
  }

  /** One more chosen path adds its entry when its file name is kept: in full if it is the first, by name otherwise. */
  lemma ShownKeptStep(st: String, paths: seq<String>, i: nat)
    requires i < |paths|
    ensures var kept := KeptPaths(st, paths[..i]);
            ShownEntries(KeptPaths(st, paths[..i + 1]))
            == ShownEntries(kept)
               + if KeepsFile(st, Basename(paths[i])) then [if kept == [] then paths[i] else Basename(paths[i])] else []
    ensures |ShownEntries(KeptPaths(st, paths[..i]))| == |KeptPaths(st, paths[..i])|
  {
    assert paths[..i + 1][..i] == paths[..i] && paths[..i + 1][i] == paths[i];
    var kept := KeptPaths(st, paths[..i]);
    if KeepsFile(st, Basename(paths[i])) {
      ShownEntriesAppend(kept, paths[i]);
    } else {
      assert KeptPaths(st, paths[..i + 1]) == kept;
    }
  }

  /** The loop of `_get_data_file_paths` that builds the data-file text from the chosen paths. */
  method DataFileTextOf(st: String, filePaths: seq<String>) returns (text: String)
    ensures text == DataFileText(st, filePaths)
  {
    var fileList: seq<String> := [];
    var i := 0;
    while i < |filePaths|
      invariant 0 <= i <= |filePaths|
      invariant fileList == ShownEntries(KeptPaths(st, filePaths[..i]))
    {
      var filePath := filePaths[i];
      var fileName := Basename(filePath);
      ShownKeptStep(st, filePaths, i);
      if KeepsFile(st, fileName) {
        if fileList == [] {
          fileList := fileList + [filePath];
        } else {
          fileList := fileList + [fileName];
        }
      }
      i := i + 1;
    }
    assert filePaths[..i] == filePaths;
    text := Join(fileList, "; ");
  }

  /** The nested loop of `_update_loaded_files_widget`. */
  method LoadedLabelsOf(listing: seq<(String, seq<String>)>) returns (labels: seq<String>)
    ensures labels == LoadedLabels(listing)
  {
    labels := [];
    var i := 0;
    while i < |listing|
      invariant 0 <= i <= |listing|
      invariant labels == LoadedLabels(listing[..i])
    {
      var st := listing[i].0;
      var ids := listing[i].1;
      var row := labels;
      var j := 0;
      while j < |ids|
        invariant 0 <= j <= |ids|
        invariant labels == row + LabelsFor(st, ids[..j])
      {
        assert ids[..j + 1][..j] == ids[..j];
        labels := labels + [Label(st, ids[j])];
        j := j + 1;
      }
      assert ids[..j] == ids;
      assert listing[..i + 1][..i] == listing[..i];
      i := i + 1;
    }
    assert listing[..i] == listing;
  }

  /** The loop of `update_all` over the page frames: the started ones, in order. */
  method FilterPages(names: seq<String>, started: set<String>) returns (updated: seq<String>)
    ensures updated == Filter(names, started)
  {
    updated := [];
    var i := 0;
    while i < |names|
      invariant 0 <= i <= |names|
      invariant updated == Filter(names[..i], started)
    {
      assert names[..i + 1][..i] == names[..i];
      if names[i] in started {
        updated := updated + [names[i]];
      }
      i := i + 1;
    }
    assert names[..i] == names;
  }

  /**
   * The loop of `_load_file` over the listed files, up to the first file
   * that ends it. The inner `load_file` clears the help line and disables
   * the load button before every call, so after at least one file the
   * button is disabled and the help line is the one the last file left.
   */
  method LoadFiles(st: String, sf: String, files: seq<String>, outcome: LoadCall -> LoadOutcome, depth: String)
    returns (r: LoadReport)
    ensures r == LoadLoop(st, sf, files, outcome, depth)
  {
    r := LoadReport([], [], [], Next);
    var i := 0;
    while i < |files|
      invariant 0 <= i <= |files|
      invariant r == LoadLoop(st, sf, files[..i], outcome, depth) && r.end == Next
    {
      LoadLoopExtend(st, sf, files, outcome, depth, i);
      var step := LoadOneFile(st, sf, files[i], outcome, depth);
      r := LoadReport(r.calls + step.calls, r.notices + step.notices, step.help, step.end);
      if step.end != Next {
        LoadLoopStopsAt(st, sf, files, outcome, depth, i);
        return;
      }
      i := i + 1;
    }
    assert files[..i] == files;
  }

  /**
   * One pass of that loop: the file is loaded, retried with the platform
   * depth when the session asks for it, and what goes wrong is shown.
   */
  method LoadOneFile(st: String, sf: String, path: String, outcome: LoadCall -> LoadOutcome, depth: String)
    returns (step: LoadReport)
    ensures step == LoadStep(st, sf, path, outcome, depth)
  {
    var first := LoadCall(st, path, sf, None);
    var calls := [first];
    var boxes: seq<Notice> := [];
    var helpLine: String := [];
    var end := Next;
    match outcome(first) {
      case Loaded =>
      case MissingPath(m) =>
        boxes := boxes + [Information("Invalid path", m)];
        helpLine := TryAgainHelp;
      case MissingInputArgument(m) =>
        if Contains(m, "depth") {
          if depth == [] {
            boxes := boxes + [Information("No depth found!", [])];
            end := Stopped;
          } else {
            var retry := LoadCall(st, path, sf, Some(depth));
            calls := calls + [retry];
            if !outcome(retry).Loaded? {
              end := Raised;
            }
          }
        }
      case InvalidParameter(m) =>
        boxes := boxes + [Information("Invalid parameter", m)];
        end := Stopped;
      case QcFieldError =>
        boxes := boxes + [Error("QC field error", path)];
        end := Stopped;
      case Failure(m) =>
        boxes := boxes + [InternalError(m)];
        end := Stopped;
    }
    step := LoadReport(calls, boxes, helpLine, end);
  }

  /** The loop of `_load_file` that turns the data-file text into the list of files to load. */
  method ParseDataFileList(text: String) returns (files: seq<String>)
    ensures files == DataFileList(text)
  {
    if ';' !in text {
      return [text];
    }
    var pieces := Split(text, ';');
    var fileName := Strip(pieces[0]);
    var directory := Dirname(fileName);
    files := [fileName];
    var k := 1;
    while k < |pieces|
      invariant 1 <= k <= |pieces|
      invariant files + JoinedToDirectory(directory, pieces[k..]) == DataFileList(text)
    {
      var next := PathJoin(directory, Strip(pieces[k]));
      assert pieces[k..][1..] == pieces[k + 1..];
      assert JoinedToDirectory(directory, pieces[k..]) == [next] + JoinedToDirectory(directory, pieces[k + 1..]);
      AppendAssociative(files, [next], JoinedToDirectory(directory, pieces[k + 1..]));
      files := files + [next];
      k := k + 1;
    }
  }

}
