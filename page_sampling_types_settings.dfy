/**
 * The sampling-type settings page: it shows one sampling-type settings
 * file (dependent parameters, flags, mandatory columns, parameter and
 * station mapping, properties), lets the user edit the dependent
 * parameters and the mandatory columns, keeps the user's accumulated list
 * of parameter names, and saves the file under its own or a new name.
 *
 * The settings file library, the mapping-file library and the user store
 * are outside the model: the sections of a loaded settings file are a
 * `Settings` value, the column names of a mapping file come from
 * `columnsInFile`, and a save that the library refuses is a `false`
 * `saveAllowed` argument. The widgets are fields holding what they show.
 */
module SettingsPage {
  import opened Text
  import opened Maybe
  import opened Dicts
  import opened SortedSets
  import opened Notices

  /** A mandatory column is built from one parameter, or from a list of them. */
  datatype ColumnSpec = Single(name: String) | Several(names: seq<String>)

  /** The sections of a sampling-type settings file that the page shows, each in the file's order. */
  datatype Settings = Settings(
    fileName: String,
    dependent: Dict<seq<String>>,
    flags: Dict<String>,
    mandatoryColumns: Dict<ColumnSpec>,
    parameterMapping: Dict<String>,
    stationMapping: Dict<String>,
    properties: Dict<String>)

  // -----------------------------------------------------------------------
  // The user's parameter list

  /** `setdefault('parameter_list', [])`: the stored list, an empty one when there is none. */
  function StoredList(stored: Option<seq<String>>): seq<String> {
    if stored.Some? then stored.value else []
  }

  /**
   * The list `_save_parameter_list_to_user` stores: the given names, with
   * the stored ones when `includeCurrent`, sorted and without repeats.
   */
  function SavedParameterList(current: seq<String>, given: seq<String>, includeCurrent: bool): (r: seq<String>)
    ensures StrictlySorted(r)
    ensures forall y :: y in r <==> (includeCurrent && y in current) || y in given
  {
    SortedDistinct((if includeCurrent then current else []) + given)
  }

  /** Saving names that are all stored already leaves a sorted stored list as it is. */
  lemma SaveKnownNames(current: seq<String>, given: seq<String>)
    requires StrictlySorted(current)
    requires forall y :: y in given ==> y in current
    ensures SavedParameterList(current, given, true) == current
  {
    SortedDistinctOfSame(current + given, current);
  }

  /** Saving the same names a second time stores what saving them once stored. */
  lemma SaveParameterListIdempotent(current: seq<String>, given: seq<String>, includeCurrent: bool)
    ensures SavedParameterList(SavedParameterList(current, given, includeCurrent), given, true)
         == SavedParameterList(current, given, includeCurrent)
  {
    SaveKnownNames(SavedParameterList(current, given, includeCurrent), given);
  }

  // -----------------------------------------------------------------------
  // Dependent parameters

  /**
   * The names offered as dependents of `par`: the names already selected
   * for it and the user's names, sorted without repeats, without `par`.
   */
  function DependentCandidates(selected: seq<String>, available: seq<String>, par: String): (r: seq<String>)
    ensures StrictlySorted(r)
    ensures forall y :: y in r <==> (y in selected || y in available) && y != par
  {
    var all := SortedDistinct(selected + available);
    if par in all then
      RemoveFirstSorted(all, par);
      RemoveFirst(all, par)
    else all
  }

  /**
   * The dependent-parameter section after the user picked `selection` for
   * `par`: an empty selection drops the entry of `par`, any other becomes
   * its entry; every other parameter keeps its entry.
   */
  function SelectDependents(dependent: Dict<seq<String>>, par: String, selection: seq<String>): (r: Dict<seq<String>>)
    ensures Get(r, par) == (if selection == [] then None else Some(selection))
    ensures forall k :: k != par ==> Get(r, k) == Get(dependent, k)
  {
    if |selection| == 0 then
      var r := Remove(dependent, par);
      forall k | k != par ensures Get(r, k) == Get(dependent, k) {
        GetRemoveOther(dependent, par, k);
      }
      r
    else
      var r := Set(dependent, par, selection);
      GetSetSame(dependent, par, selection);
      forall k | k != par ensures Get(r, k) == Get(dependent, k) {
        GetSetOther(dependent, par, selection, k);
      }
      r
  }

  /** `combobox.delete_item(x)`: the items without `x`, the others in their order (`WithoutKeepsOrder`). */
  function Without(items: seq<String>, x: String): (r: seq<String>)
    ensures |r| <= |items|
    ensures forall y :: y in r <==> y in items && y != x
  {
    if items == [] then []
    else if items[0] == x then Without(items[1..], x)
    else [items[0]] + Without(items[1..], x)
  }

  /**
   * Removing an item keeps the others in their order: removing from two
   * pieces one after the other is removing from their concatenation.
   */
  lemma {:induction false} WithoutKeepsOrder(front: seq<String>, back: seq<String>, x: String)
    ensures Without(front + back, x) == Without(front, x) + Without(back, x)
  {
    if front == [] {
      assert front + back == back;
    } else {
      assert (front + back)[1..] == front[1..] + back;
      WithoutKeepsOrder(front[1..], back, x);
    }
  }

  /** An item that is not offered leaves the items as they are. */
  lemma {:induction false} WithoutAbsent(items: seq<String>, x: String)
    requires x !in items
    ensures Without(items, x) == items
  {
    if items != [] {
      WithoutAbsent(items[1..], x);
    }
  }

  // -----------------------------------------------------------------------
  // The two-column grids of flags, mandatory columns and properties

  /** Each grid widget has ten rows. */
  const GridRows: nat := 10

  const EmptyRow: (String, String) := ("", "")

  /** Row `r` of the grid shows the `r`-th entry, and the rows after the last entry are empty. */
  predicate GridShows(grid: seq<(String, String)>, entries: seq<(String, String)>) {
    |grid| == GridRows
    && forall r :: 0 <= r < GridRows ==> grid[r] == (if r < |entries| then entries[r] else EmptyRow)
  }

  /** `reset_all_entries` followed by the `enumerate` loop writing key and value into row `r`. */
  method FillGrid(entries: seq<(String, String)>) returns (grid: seq<(String, String)>)
    requires |entries| <= GridRows
    ensures GridShows(grid, entries)
  {
    grid := seq(GridRows, _ => EmptyRow);
    var r := 0;
    while r < |entries|
      invariant r <= |entries| && |grid| == GridRows
      invariant forall k :: 0 <= k < GridRows ==> grid[k] == (if k < r then entries[k] else EmptyRow)
    {
      grid := grid[r := entries[r]];
      r := r + 1;
    }
  }

  /** How the grid shows a mandatory column: a list of names is joined with "; ". */
  function Shown(spec: ColumnSpec): String {
    match spec
    case Single(name) => name
    case Several(names) => Join(names, "; ")
  }

  /** The rows of the mandatory-column grid: each item with its column as shown. */
  function ManColRows(columns: Dict<ColumnSpec>): (r: seq<(String, String)>)
    ensures |r| == |columns|
    ensures forall i :: 0 <= i < |columns| ==> r[i] == (columns[i].0, Shown(columns[i].1))
  {
    if columns == [] then [] else [(columns[0].0, Shown(columns[0].1))] + ManColRows(columns[1..])
  }

  /** The grid loop of `_update_labelframe_mandatory_columns`, joining a list-valued column on the way. */
  method FillManColGrid(columns: Dict<ColumnSpec>) returns (grid: seq<(String, String)>)
    requires |columns| <= GridRows
    ensures GridShows(grid, ManColRows(columns))
  {
    grid := seq(GridRows, _ => EmptyRow);
    var r := 0;
    while r < |columns|
      invariant r <= |columns| && |grid| == GridRows
      invariant forall k :: 0 <= k < GridRows ==>
                  grid[k] == (if k < r then (columns[k].0, Shown(columns[k].1)) else EmptyRow)
    {
      var (item, col) := columns[r];
      var text: String;
      if col.Several? {
        text := Join(col.names, "; ");
      } else {
        text := col.name;
      }
      grid := grid[r := (item, text)];
      r := r + 1;
    }
  }

  /** `[v.strip() for v in value.split(';')]`: the names a shown list-valued column stands for. */
  function ReadBack(text: String): (r: seq<String>)
    ensures |r| == |Split(text, ';')| >= 1
  {
    StripEach(Split(text, ';'))
  }

  /** A non-empty list of clean names is read back from the grid as it was. */
  lemma ReadBackShown(names: seq<String>)
    requires |names| >= 1 && CleanEntries(names)
    ensures ReadBack(Shown(Several(names))) == names
  {
    StripEachSplitJoin(names);
  }

  /** An empty list is shown as an empty cell and read back as one empty name. */
  lemma {:induction false} ReadBackShownEmpty()
    ensures Shown(Several([])) == []
    ensures ReadBack(Shown(Several([]))) == [[]]
  {
    assert Split([], ';') == [[]];
    assert Strip([]) == [];
  }

  /** `'; '.join(value)` in the Ok handler as written: a single name is a string, so its characters are joined. */
  function OkTextAsWritten(chosen: ColumnSpec): String {
    match chosen
    case Single(name) => Join(Characters(name), "; ")
    case Several(names) => Join(names, "; ")
  }

  /** The characters of a string, each as a string of its own: iterating a Python string. */
  function Characters(s: String): (r: seq<String>)
    ensures |r| == |s|
    ensures forall i :: 0 <= i < |s| ==> r[i] == [s[i]]
  {
    seq(|s|, i requires 0 <= i < |s| => [s[i]])
  }

  /** Joining the `n` characters of a name with "; " gives `3 * n - 2` characters. */
  lemma {:induction false} JoinCharactersLength(s: String)
    requires |s| >= 1
    ensures |Join(Characters(s), "; ")| == 3 * |s| - 2
  {
    if |s| > 1 {
      JoinCharactersLength(s[1..]);
      assert Characters(s)[1..] == Characters(s[1..]);
    }
  }

  /** As written, Ok on a single-name column of two or more characters shows another text than the name. */
  lemma OkTextAsWrittenSplitsName(name: String)
    requires |name| >= 2
    ensures OkTextAsWritten(Single(name)) != Shown(Single(name))
  {
    JoinCharactersLength(name);
  }

  /** For instance "TEMP" is shown as "T; E; M; P" although the settings store "TEMP". */
  lemma OkTextAsWrittenExample()
    ensures OkTextAsWritten(Single("TEMP")) == "T; E; M; P"
  {
    var c := Characters("TEMP");
    assert c == ["T", "E", "M", "P"];
    assert c[1..] == ["E", "M", "P"] && c[2..] == ["M", "P"] && c[3..] == ["P"];
  }

  /** The popup `_on_focus_man_col` opens for a row of the mandatory-column grid. */
  datatype Popup =
    | Closed
      /** The window opened before reading the setting raised: no choices in it. */
    | Blank
      /** Choose the parameters of a list-valued column; the names in the cell come preselected. */
    | ChooseSeveral(row: nat, item: String, items: seq<String>, selected: seq<String>)
      /** Choose the parameter of a single-name column; the cell's text is the default. */
    | ChooseOne(row: nat, item: String, items: seq<String>, preset: String)

  // -----------------------------------------------------------------------
  // Parameter and station mapping

  /** A mapping panel: its file combobox, the column comboboxes' items and the values shown. */
  datatype MappingPanel = MappingPanel(
    fileItems: seq<String>,
    file: String,
    columnItems: seq<seq<String>>,
    values: seq<Option<String>>)

  /** The parameter mapping shows three column comboboxes and these settings, in this order. */
  const ParameterColumns: nat := 3
  const ParameterMappingKeys: seq<String> :=
    ["internal_column", "external_column", "unit_column", "encoding", "qf_prefix", "qf_suffix", "unit_starts_with"]

  /** The station mapping shows two column comboboxes and these settings, in this order. */
  const StationColumns: nat := 2
  const StationMappingKeys: seq<String> := ["internal_column", "external_column", "encoding", "header_starts_with"]

  /** `_on_select_*_mapping_file`: every column combobox offers an empty choice and then the file's columns. */
  function SelectMappingFile(panel: MappingPanel, columns: seq<String>, count: nat): (r: MappingPanel)
    ensures r.fileItems == panel.fileItems && r.file == panel.file && r.values == panel.values
    ensures |r.columnItems| == count
    ensures forall i :: 0 <= i < count ==> r.columnItems[i] == [""] + columns
  {
    panel.(columnItems := seq(count, _ => [""] + columns))
  }

  /** What showing a mapping section does: the panel it leaves, or the file name it refuses. */
  datatype MappingResult = Refreshed(panel: MappingPanel) | InvalidFileId(fileBase: Option<String>)

  /**
   * `_update_labelframe_*_mapping`: a file name that the file combobox does
   * not offer (or none at all) is refused before any widget is set;
   * otherwise the file is selected, its columns are offered, and the
   * value of each key is shown.
   */
  function ShowMapping(panel: MappingPanel, mapData: Dict<String>, keys: seq<String>, columns: String -> seq<String>,
                       count: nat): (r: MappingResult)
    ensures var f := Get(mapData, "file_name");
            r.InvalidFileId? <==> f.None? || f.value !in panel.fileItems
    ensures r.InvalidFileId? ==> r.fileBase == Get(mapData, "file_name")
  {
    var fileBase := Get(mapData, "file_name");
    if fileBase.None? || fileBase.value !in panel.fileItems then InvalidFileId(fileBase)
    else
      var selected := SelectMappingFile(panel.(file := fileBase.value), columns(fileBase.value), count);
      Refreshed(selected.(values := seq(|keys|, i requires 0 <= i < |keys| => Get(mapData, keys[i]))))
  }

  /**
   * A mapping shown without refusal selects the file named in the
   * settings, offers its columns in every column combobox and shows the
   * value of each key.
   */
  lemma ShowMappingRefreshes(panel: MappingPanel, mapData: Dict<String>, keys: seq<String>,
                             columns: String -> seq<String>, count: nat)
    requires ShowMapping(panel, mapData, keys, columns, count).Refreshed?
    ensures var r := ShowMapping(panel, mapData, keys, columns, count).panel;
            r.fileItems == panel.fileItems && Some(r.file) == Get(mapData, "file_name")
            && |r.columnItems| == count && (forall i :: 0 <= i < count ==> r.columnItems[i] == [""] + columns(r.file))
            && |r.values| == |keys| && (forall i :: 0 <= i < |keys| ==> r.values[i] == Get(mapData, keys[i]))
  {
    var fileBase := Get(mapData, "file_name");
    var selected := SelectMappingFile(panel.(file := fileBase.value), columns(fileBase.value), count);
    assert selected.file == fileBase.value;
  }

  // -----------------------------------------------------------------------
  // Which entry widget each value-entry attribute names

  /** The two mapping frames of the page. */
  datatype Frame = ParameterFrame | StationFrame

  /** A value entry widget: the frame it is placed in and its row among that frame's value entries. */
  datatype Slot = Slot(frame: Frame, row: nat)

  /** The page attributes that keep the value entries (`par_map_entry_*`, `sta_map_entry_*`). */
  datatype Attribute =
    | ParEncoding | ParQfPrefix | ParQfSuffix | ParUnitStart
    | StaEncoding | StaHeaderStart

  /** `_set_labelframe_parameter_mapping`: each value entry it creates and the attribute that keeps it. */
  const ParameterFrameEntries: seq<(Attribute, Slot)> := [
    (ParEncoding, Slot(ParameterFrame, 0)),
    (ParQfPrefix, Slot(ParameterFrame, 1)),
    (ParQfSuffix, Slot(ParameterFrame, 2)),
    (ParUnitStart, Slot(ParameterFrame, 3))]

  /**
   * `_set_labelframe_station_mapping` as written: after its own two value
   * entries it creates a "QF suffix" and a "Unit starts with" entry in the
   * station frame and keeps them in the parameter frame's attributes.
   */
  const StationFrameEntriesAsWritten: seq<(Attribute, Slot)> := [
    (StaEncoding, Slot(StationFrame, 0)),
    (StaHeaderStart, Slot(StationFrame, 1)),
    (ParQfSuffix, Slot(StationFrame, 2)),
    (ParUnitStart, Slot(StationFrame, 3))]

  /** The station frame's value entries as intended: its encoding and header entries. */
  const StationFrameEntries: seq<(Attribute, Slot)> := StationFrameEntriesAsWritten[..2]

  /** The value entries each mapping update writes: the attribute and the mapping key whose value it gets. */
  const ParameterEntryWrites: seq<(Attribute, String)> := [
    (ParEncoding, "encoding"),
    (ParQfPrefix, "qf_prefix"),
    (ParQfSuffix, "qf_suffix"),
    (ParUnitStart, "unit_starts_with")]
  const StationEntryWrites: seq<(Attribute, String)> := [
    (StaEncoding, "encoding"),
    (StaHeaderStart, "header_starts_with")]

  /** The entry an attribute names after the assignments in `created`: the last one made to it. */
  function BoundTo(created: seq<(Attribute, Slot)>, attribute: Attribute): Option<Slot> {
    if created == [] then None
    else if created[|created| - 1].0 == attribute then Some(created[|created| - 1].1)
    else BoundTo(created[..|created| - 1], attribute)
  }

  /** The entry an attribute names after four assignments. */
  lemma BoundToFour(created: seq<(Attribute, Slot)>, attribute: Attribute)
    requires |created| == 4
    ensures BoundTo(created, attribute) ==
            if created[3].0 == attribute then Some(created[3].1)
            else if created[2].0 == attribute then Some(created[2].1)
            else if created[1].0 == attribute then Some(created[1].1)
            else if created[0].0 == attribute then Some(created[0].1)
            else None
  {
    var c := created;
    assert c[..3][..2] == c[..2] && c[..2][..1] == c[..1] && c[..1][..0] == [];
    assert BoundTo(c[..1], attribute) == if c[0].0 == attribute then Some(c[0].1) else None;
    assert BoundTo(c[..2], attribute) == if c[1].0 == attribute then Some(c[1].1) else BoundTo(c[..1], attribute);
    assert BoundTo(c[..3], attribute) == if c[2].0 == attribute then Some(c[2].1) else BoundTo(c[..2], attribute);
  }

  /** An attribute assigned again later names the later entry; one not assigned again keeps its entry. */
  lemma {:induction false} LaterAssignmentWins(earlier: seq<(Attribute, Slot)>, later: seq<(Attribute, Slot)>,
                                               attribute: Attribute)
    ensures BoundTo(earlier + later, attribute) ==
            (if BoundTo(later, attribute).Some? then BoundTo(later, attribute) else BoundTo(earlier, attribute))
  {
    if later != [] {
      var n := |later| - 1;
      assert (earlier + later)[..|earlier + later| - 1] == earlier + later[..n];
      LaterAssignmentWins(earlier, later[..n], attribute);
    } else {
      assert earlier + later == earlier;
    }
  }

  /** `set_value` on each entry in turn, with the value of its mapping key. */
  function EntryWrites(writes: seq<(Attribute, String)>, mapData: Dict<String>): (r: seq<(Attribute, Option<String>)>)
    ensures |r| == |writes|
    ensures forall i :: 0 <= i < |writes| ==> r[i] == (writes[i].0, Get(mapData, writes[i].1))
  {
    seq(|writes|, i requires 0 <= i < |writes| => (writes[i].0, Get(mapData, writes[i].1)))
  }

  /**
   * What the entry at `slot` shows after the writes: the last value
   * written through an attribute naming it, or nothing when no write
   * reaches it and it stays blank.
   */
  function EntryShows(created: seq<(Attribute, Slot)>, writes: seq<(Attribute, Option<String>)>, slot: Slot)
    : Option<Option<String>>
  {
    if writes == [] then None
    else
      var last := writes[|writes| - 1];
      if BoundTo(created, last.0) == Some(slot) then Some(last.1)
      else EntryShows(created, writes[..|writes| - 1], slot)
  }

  /** An entry that no write's attribute names stays blank. */
  lemma {:induction false} UnreachedEntryStaysBlank(created: seq<(Attribute, Slot)>,
                                                    writes: seq<(Attribute, Option<String>)>, slot: Slot)
    requires forall i :: 0 <= i < |writes| ==> BoundTo(created, writes[i].0) != Some(slot)
    ensures EntryShows(created, writes, slot) == None
  {
    if writes != [] {
      UnreachedEntryStaysBlank(created, writes[..|writes| - 1], slot);
    }
  }

  /** An entry shows the value of the last write whose attribute names it. */
  lemma {:induction false} LastWriteShows(created: seq<(Attribute, Slot)>, writes: seq<(Attribute, Option<String>)>,
                                          slot: Slot, k: nat)
    requires k < |writes| && BoundTo(created, writes[k].0) == Some(slot)
    requires forall i :: k < i < |writes| ==> BoundTo(created, writes[i].0) != Some(slot)
    ensures EntryShows(created, writes, slot) == Some(writes[k].1)
  {
    if k < |writes| - 1 {
      LastWriteShows(created, writes[..|writes| - 1], slot, k);
    }
  }

  /** The two mapping frames' value entries once both are set up, and what `update_page` writes into them. */
  function CreatedEntries(station: seq<(Attribute, Slot)>): seq<(Attribute, Slot)> {
    ParameterFrameEntries + station
  }
  function MappingWrites(parameterMapping: Dict<String>, stationMapping: Dict<String>): seq<(Attribute, Option<String>)> {
    EntryWrites(ParameterEntryWrites, parameterMapping) + EntryWrites(StationEntryWrites, stationMapping)
  }

  /** The entry each attribute names once both frames are set up as written. */
  function BoundAsWritten(a: Attribute): Slot {
    match a
    case ParEncoding => Slot(ParameterFrame, 0)
    case ParQfPrefix => Slot(ParameterFrame, 1)
    case ParQfSuffix => Slot(StationFrame, 2)
    case ParUnitStart => Slot(StationFrame, 3)
    case StaEncoding => Slot(StationFrame, 0)
    case StaHeaderStart => Slot(StationFrame, 1)
  }

  /** As written, the station frame's rebinding moves the "QF suffix" and "Unit starts with" attributes to its own entries. */
  lemma BindingsAsWritten(a: Attribute)
    ensures BoundTo(CreatedEntries(StationFrameEntriesAsWritten), a) == Some(BoundAsWritten(a))
  {
    var station := StationFrameEntriesAsWritten;
    var p := ParameterFrameEntries;
    LaterAssignmentWins(p, station, a);
    BoundToFour(station, a);
    BoundToFour(p, a);
  }

  /** Six writes through attributes naming these entries leave the two rebound entries as stated below. */
  lemma {:induction false} ShownThroughBindings(created: seq<(Attribute, Slot)>,
                                                writes: seq<(Attribute, Option<String>)>,
                                                bound: Attribute -> Slot)
    requires |writes| == 6
    requires forall i :: 0 <= i < 6 ==> BoundTo(created, writes[i].0) == Some(bound(writes[i].0))
    requires bound(writes[0].0) == Slot(ParameterFrame, 0) && bound(writes[1].0) == Slot(ParameterFrame, 1)
    requires bound(writes[2].0) == Slot(StationFrame, 2) && bound(writes[3].0) == Slot(StationFrame, 3)
    requires bound(writes[4].0) == Slot(StationFrame, 0) && bound(writes[5].0) == Slot(StationFrame, 1)
    ensures EntryShows(created, writes, Slot(ParameterFrame, 2)) == None
    ensures EntryShows(created, writes, Slot(ParameterFrame, 3)) == None
    ensures EntryShows(created, writes, Slot(StationFrame, 2)) == Some(writes[2].1)
    ensures EntryShows(created, writes, Slot(StationFrame, 3)) == Some(writes[3].1)
  {
    UnreachedEntryStaysBlank(created, writes, Slot(ParameterFrame, 2));
    UnreachedEntryStaysBlank(created, writes, Slot(ParameterFrame, 3));
    LastWriteShows(created, writes, Slot(StationFrame, 2), 2);
    LastWriteShows(created, writes, Slot(StationFrame, 3), 3);
  }

  /**
   * As written, the parameter frame's "QF suffix" and "Unit starts with"
   * entries are never written and stay blank, while the two entries of
   * the same names in the station frame show the parameter mapping's
   * `qf_suffix` and `unit_starts_with`.
   */
  lemma StationFrameShowsParameterSuffixes(parameterMapping: Dict<String>, stationMapping: Dict<String>)
    ensures var created := CreatedEntries(StationFrameEntriesAsWritten);
            var writes := MappingWrites(parameterMapping, stationMapping);
            EntryShows(created, writes, Slot(ParameterFrame, 2)) == None
            && EntryShows(created, writes, Slot(ParameterFrame, 3)) == None
            && EntryShows(created, writes, Slot(StationFrame, 2)) == Some(Get(parameterMapping, "qf_suffix"))
            && EntryShows(created, writes, Slot(StationFrame, 3)) == Some(Get(parameterMapping, "unit_starts_with"))
  {
    var created := CreatedEntries(StationFrameEntriesAsWritten);
    var writes := MappingWrites(parameterMapping, stationMapping);
    forall a: Attribute
      ensures BoundTo(created, a) == Some(BoundAsWritten(a))
    {
      BindingsAsWritten(a);
    }
    ShownThroughBindings(created, writes, BoundAsWritten);
  }

  /** The entry each attribute names when each frame keeps its own entries: its own row in its own frame. */
  function BoundIntended(a: Attribute): Slot {
    match a
    case ParEncoding => Slot(ParameterFrame, 0)
    case ParQfPrefix => Slot(ParameterFrame, 1)
    case ParQfSuffix => Slot(ParameterFrame, 2)
    case ParUnitStart => Slot(ParameterFrame, 3)
    case StaEncoding => Slot(StationFrame, 0)
    case StaHeaderStart => Slot(StationFrame, 1)
  }

  /** Without the rebinding, every attribute keeps the entry its own frame created. */
  lemma BindingsIntended(a: Attribute)
    ensures BoundTo(CreatedEntries(StationFrameEntries), a) == Some(BoundIntended(a))
  {
    var station := StationFrameEntries;
    var p := ParameterFrameEntries;
    LaterAssignmentWins(p, station, a);
    assert station[..1][..0] == [];
    assert BoundTo(station[..1], a) == if station[0].0 == a then Some(station[0].1) else None;
    BoundToFour(p, a);
  }

  /**
   * With the station frame keeping only its own entries, each of the
   * parameter frame's value entries shows the value of its key, which is
   * the value `ShowMapping` puts in the parameter panel for that key.
   */
  lemma ParameterFrameShowsItsMapping(parameterMapping: Dict<String>, stationMapping: Dict<String>, row: nat)
    requires row < |ParameterEntryWrites|
    ensures var created := CreatedEntries(StationFrameEntries);
            var writes := MappingWrites(parameterMapping, stationMapping);
            EntryShows(created, writes, Slot(ParameterFrame, row)) == Some(Get(parameterMapping, ParameterEntryWrites[row].1))
            && ParameterEntryWrites[row].1 == ParameterMappingKeys[ParameterColumns + row]
  {
    var created := CreatedEntries(StationFrameEntries);
    var writes := MappingWrites(parameterMapping, stationMapping);
    forall i | 0 <= i < |writes|
      ensures BoundTo(created, writes[i].0) == Some(BoundIntended(writes[i].0))
    {
      BindingsIntended(writes[i].0);
    }
    LastWriteShows(created, writes, Slot(ParameterFrame, row), row);
  }

  /** How `update_page` ends: everything shown, or stopped by a mapping file name it refuses. */
  datatype PageResult = PageShown | Stopped(fileBase: Option<String>)

  /** Settings whose grids fit the ten-row grid widgets. */
  predicate FitsGrids(s: Settings) {
    |s.flags| <= GridRows && |s.mandatoryColumns| <= GridRows && |s.properties| <= GridRows
  }

  class PageSamplingTypeSettings {
    /** The settings object of the selected file. */
    var settings: Settings
    /** The user's `parameter_list`, `None` until it is first asked for. */
    var parameterList: Option<seq<String>>
    /** The settings files offered, and the file combobox's items and value. */
    var settingsFiles: seq<String>
    var fileItems: seq<String>
    var fileChoice: String
    /** The file names saved, in order. */
    var saved: seq<String>
    /** The dependent-parameter combobox: its items and its value. */
    var dependentItems: seq<String>
    var dependentChoice: String
    /** The dependent-parameter listbox: the names offered and the names selected. */
    var listboxItems: seq<String>
    var listboxSelected: seq<String>
    var flagGrid: seq<(String, String)>
    var manColGrid: seq<(String, String)>
    var propGrid: seq<(String, String)>
    var popup: Popup
    var parameterMapping: MappingPanel
    var stationMapping: MappingPanel
    var notices: seq<Notice>
    /** The column names of a mapping file, as the mapping-file library reads them. */
    const columnsInFile: String -> seq<String>

    /** A page before its first file is selected: empty grids and panels offering `mappingFiles`. */
    constructor (stored: Option<seq<String>>, files: seq<String>, mappingFiles: seq<String>,
                 columns: String -> seq<String>)
      ensures parameterList == stored && settingsFiles == files && fileItems == files
      ensures parameterMapping.fileItems == mappingFiles && stationMapping.fileItems == mappingFiles
      ensures saved == [] && notices == [] && popup == Closed
      ensures columnsInFile == columns
    {
      settings := Settings([], [], [], [], [], [], []);
      parameterList := stored;
      settingsFiles := files;
      fileItems := files;
      fileChoice := [];
      saved := [];
      dependentItems := [];
      dependentChoice := [];
      listboxItems := [];
      listboxSelected := [];
      flagGrid := seq(GridRows, _ => EmptyRow);
      manColGrid := seq(GridRows, _ => EmptyRow);
      propGrid := seq(GridRows, _ => EmptyRow);
      popup := Closed;
      parameterMapping := MappingPanel(mappingFiles, [], [], []);
      stationMapping := MappingPanel(mappingFiles, [], [], []);
      notices := [];
      columnsInFile := columns;
    }

    /** `_save_parameter_list_to_user`. */
    method SaveParameterListToUser(given: seq<String>, includeCurrent: bool)
      modifies this`parameterList
      ensures parameterList == Some(SavedParameterList(StoredList(old(parameterList)), given, includeCurrent))
    {
      var current: seq<String> := [];
      if includeCurrent {
        current := StoredList(parameterList);
        parameterList := Some(current);
      }
      parameterList := Some(SortedDistinct(current + given));
    }

    /**
     * `_update_listbox_selection_widget_dependent_parameters`: offers the
     * candidates for the combobox's parameter with its current dependents
     * selected, and adds the candidates to the user's list. Looking up a
     * parameter without an entry raises before anything changes.
     */
    method UpdateDependentListbox() returns (raised: bool)
      modifies this`parameterList, this`listboxItems, this`listboxSelected
      ensures raised <==> Get(settings.dependent, dependentChoice).None?
      ensures raised ==> parameterList == old(parameterList) && listboxItems == old(listboxItems)
                         && listboxSelected == old(listboxSelected)
      ensures !raised ==>
                var selected := Get(settings.dependent, dependentChoice).value;
                var available := StoredList(old(parameterList));
                listboxItems == DependentCandidates(selected, available, dependentChoice)
                && listboxSelected == selected
                && parameterList == Some(SavedParameterList(available, listboxItems, true))
    {
      var par := dependentChoice;
      var found := Get(settings.dependent, par);
      if found.None? {
        return true;
      }
      var selected := found.value;
      var available := StoredList(parameterList);
      var candidates := DependentCandidates(selected, available, par);
      listboxItems := candidates;
      listboxSelected := selected;
      parameterList := Some(SavedParameterList(available, candidates, true));
      raised := false;
    }

    /**
     * What a refresh of the listbox leaves, raised or not: the state before
     * it when the combobox's parameter has no entry, otherwise the
     * refreshed candidates and selection and the user's list with the
     * candidates added.
     */
    ghost predicate ListboxRefreshed(oldParameterList: Option<seq<String>>, oldItems: seq<String>,
                                     oldSelected: seq<String>)
      reads this`settings, this`dependentChoice, this`parameterList, this`listboxItems, this`listboxSelected
    {
      match Get(settings.dependent, dependentChoice)
      case None =>
        parameterList == oldParameterList && listboxItems == oldItems && listboxSelected == oldSelected
      case Some(selected) =>
        var available := StoredList(oldParameterList);
        listboxItems == DependentCandidates(selected, available, dependentChoice)
        && listboxSelected == selected
        && parameterList == Some(SavedParameterList(available, listboxItems, true))
    }

    /** `_on_select_listbox_selection_widget_dependent_parameters`: the selection becomes the entry of the combobox's parameter. */
    method OnSelectDependents(selection: seq<String>)
      modifies this`settings
      ensures settings == old(settings).(dependent := SelectDependents(old(settings).dependent, dependentChoice, selection))
    {
      var par := dependentChoice;
      if |selection| == 0 {
        settings := settings.(dependent := Remove(settings.dependent, par));
      } else {
        settings := settings.(dependent := Set(settings.dependent, par, selection));
      }
    }

    /** `_remove_dependent_parameter`: the combobox's parameter leaves the combobox and the settings. */
    method RemoveDependentParameter()
      modifies this`dependentItems, this`settings
      ensures dependentItems == Without(old(dependentItems), dependentChoice)
      ensures settings == old(settings).(dependent := Remove(old(settings).dependent, dependentChoice))
    {
      var parameter := dependentChoice;
      dependentItems := Without(dependentItems, parameter);
      settings := settings.(dependent := Remove(settings.dependent, parameter));
    }

    /**
     * "Add parameter" in the popup of `_add_dependent_parameter`: no name
     * only tells the user so; a name gets an empty entry, the combobox
     * offers the parameters of the settings and shows the new one (or
     * keeps its choice when "Show dependencies" is off), and the listbox
     * is refreshed.
     */
    method AddDependentParameter(parameter: String, showParameter: bool) returns (raised: bool)
      modifies this`notices, this`settings, this`dependentItems, this`dependentChoice
      modifies this`parameterList, this`listboxItems, this`listboxSelected
      ensures parameter == [] ==>
                !raised && notices == old(notices) + [Information("Create dependencies", "No parameter selected")]
                && settings == old(settings) && dependentItems == old(dependentItems)
                && dependentChoice == old(dependentChoice) && parameterList == old(parameterList)
                && listboxItems == old(listboxItems) && listboxSelected == old(listboxSelected)
      ensures parameter != [] ==>
                notices == old(notices)
                && settings == old(settings).(dependent := Set(old(settings).dependent, parameter, []))
                && dependentItems == Keys(settings.dependent)
                && dependentChoice == (if showParameter then parameter else old(dependentChoice))
      ensures parameter != [] ==>
                (raised <==> Get(settings.dependent, dependentChoice).None?)
                && ListboxRefreshed(old(parameterList), old(listboxItems), old(listboxSelected))
      ensures parameter != [] && showParameter ==>
                !raised && listboxSelected == []
                && listboxItems == DependentCandidates([], StoredList(old(parameterList)), parameter)
    {
      if parameter == [] {
        notices := notices + [Information("Create dependencies", "No parameter selected")];
        return false;
      }
      var currentPar := dependentChoice;
      settings := settings.(dependent := Set(settings.dependent, parameter, []));
      dependentItems := Keys(settings.dependent);
      if showParameter {
        dependentChoice := parameter;
        GetSetSame(old(settings).dependent, parameter, []);
      } else {
        dependentChoice := currentPar;
      }
      raised := UpdateDependentListbox();
    }

    /**
     * `_load_parameter_file`: no path chosen does nothing; otherwise the
     * file's names join the user's list and the listbox is refreshed.
     */
    method LoadParameterFile(path: String, names: seq<String>) returns (raised: bool)
      modifies this`parameterList, this`listboxItems, this`listboxSelected
      ensures path == [] ==> !raised && parameterList == old(parameterList)
                             && listboxItems == old(listboxItems) && listboxSelected == old(listboxSelected)
      ensures path != [] ==> (raised <==> Get(settings.dependent, dependentChoice).None?)
      ensures path != [] && raised ==>
                parameterList == Some(SavedParameterList(StoredList(old(parameterList)), names, true))
      ensures path != [] && !raised ==>
                var selected := Get(settings.dependent, dependentChoice).value;
                listboxItems
                == DependentCandidates(selected, SavedParameterList(StoredList(old(parameterList)), names, true),
                                       dependentChoice)
                && listboxSelected == selected
      ensures path != [] ==>
                ListboxRefreshed(Some(SavedParameterList(StoredList(old(parameterList)), names, true)),
                                 old(listboxItems), old(listboxSelected))
    {
      if path == [] {
        return false;
      }
      SaveParameterListToUser(names, true);
      raised := UpdateDependentListbox();
    }

    /**
     * `_on_focus_man_col`: the item column opens nothing; the column of
     * names opens a popup listing the user's parameters, preselecting the
     * cell's names for a list-valued column (after adding them to the
     * user's list) and presetting the cell's text for a single one.
     */
    method FocusManCol(row: nat, col: nat) returns (raised: bool)
      requires row < |manColGrid| && col <= 1
      modifies this`popup, this`parameterList
      ensures col == 0 ==> !raised && popup == old(popup) && parameterList == old(parameterList)
      ensures col == 1 ==>
                var item := manColGrid[row].0;
                var value := manColGrid[row].1;
                var current := StoredList(old(parameterList));
                var found: Option<ColumnSpec> := Get(settings.mandatoryColumns, item);
                (found.None? ==> raised && popup == Blank && parameterList == Some(current))
                && (found.Some? && found.value.Several? ==>
                      !raised && parameterList == Some(SavedParameterList(current, ReadBack(value), true))
                      && popup == ChooseSeveral(row, item, parameterList.value, ReadBack(value)))
                && (found.Some? && found.value.Single? ==>
                      !raised && parameterList == Some(current) && popup == ChooseOne(row, item, current, value))
    {
      if col == 0 {
        return false;
      }
      popup := Blank;
      var current := StoredList(parameterList);
      parameterList := Some(current);
      var item := manColGrid[row].0;
      var value := manColGrid[row].1;
      var settingsValue := Get(settings.mandatoryColumns, item);
      if settingsValue.None? {
        return true;
      }
      raised := false;
      if settingsValue.value.Several? {
        var valueList := ReadBack(value);
        SaveParameterListToUser(valueList, true);
        popup := ChooseSeveral(row, item, StoredList(parameterList), valueList);
      } else {
        popup := ChooseOne(row, item, current, value);
      }
    }

    /**
     * Ok in the popup: the cell shows the choice as the grid shows a
     * column, the settings store it under the item, and the popup closes.
     */
    method ManColOk(chosen: ColumnSpec)
      requires popup.ChooseSeveral? || popup.ChooseOne?
      requires popup.row < |manColGrid|
      requires chosen.Several? <==> popup.ChooseSeveral?
      modifies this`manColGrid, this`settings, this`popup
      ensures manColGrid == old(manColGrid)[old(popup).row := (old(popup).item, Shown(chosen))]
      ensures settings == old(settings).(mandatoryColumns := Set(old(settings).mandatoryColumns, old(popup).item, chosen))
      ensures popup == Closed
    {
      var row := popup.row;
      var item := popup.item;
      manColGrid := manColGrid[row := (item, Shown(chosen))];
      settings := settings.(mandatoryColumns := Set(settings.mandatoryColumns, item, chosen));
      popup := Closed;
    }

    /** Cancel in the popup, or closing its window. */
    method ManColCancel()
      modifies this`popup
      ensures popup == Closed
    {
      popup := Closed;
    }

    /** `_update_labelframe_parameter_mapping`. */
    method ShowParameterMapping() returns (result: MappingResult)
      modifies this`parameterMapping
      ensures result == ShowMapping(old(parameterMapping), settings.parameterMapping, ParameterMappingKeys,
                                    columnsInFile, ParameterColumns)
      ensures parameterMapping == (if result.Refreshed? then result.panel else old(parameterMapping))
    {
      result := ShowMapping(parameterMapping, settings.parameterMapping, ParameterMappingKeys, columnsInFile,
                            ParameterColumns);
      if result.Refreshed? {
        parameterMapping := result.panel;
      }
    }

    /** `_update_labelframe_station_mapping`. */
    method ShowStationMapping() returns (result: MappingResult)
      modifies this`stationMapping
      ensures result == ShowMapping(old(stationMapping), settings.stationMapping, StationMappingKeys,
                                    columnsInFile, StationColumns)
      ensures stationMapping == (if result.Refreshed? then result.panel else old(stationMapping))
    {
      result := ShowMapping(stationMapping, settings.stationMapping, StationMappingKeys, columnsInFile, StationColumns);
      if result.Refreshed? {
        stationMapping := result.panel;
      }
    }

    /**
     * What the mapping sections of `update_page` leave, given how showing
     * each mapping goes: a refused file stops everything after it.
     */
    ghost predicate MappingsShown(result: PageResult, p: MappingResult, s: MappingResult,
                                  oldParameterMapping: MappingPanel, oldStationMapping: MappingPanel,
                                  oldPropGrid: seq<(String, String)>)
      reads this`parameterMapping, this`stationMapping, this`propGrid, this`settings
    {
      && (p.InvalidFileId? ==>
            result == Stopped(p.fileBase) && parameterMapping == oldParameterMapping
            && stationMapping == oldStationMapping && propGrid == oldPropGrid)
      && (p.Refreshed? && s.InvalidFileId? ==>
            result == Stopped(s.fileBase) && parameterMapping == p.panel
            && stationMapping == oldStationMapping && propGrid == oldPropGrid)
      && (p.Refreshed? && s.Refreshed? ==>
            result == PageShown && parameterMapping == p.panel && stationMapping == s.panel
            && GridShows(propGrid, settings.properties))
    }

    /** The parameter mapping, the station mapping and the properties of `update_page`. */
    method ShowMappingsAndProperties() returns (result: PageResult)
      requires |settings.properties| <= GridRows
      modifies this`propGrid, this`parameterMapping, this`stationMapping
      ensures MappingsShown(result,
                ShowMapping(old(parameterMapping), settings.parameterMapping, ParameterMappingKeys, columnsInFile,
                            ParameterColumns),
                ShowMapping(old(stationMapping), settings.stationMapping, StationMappingKeys, columnsInFile,
                            StationColumns),
                old(parameterMapping), old(stationMapping), old(propGrid))
      ensures result.Stopped? ==> propGrid == old(propGrid)
    {
      var p := ShowParameterMapping();
      if p.InvalidFileId? {
        return Stopped(p.fileBase);
      }
      var s := ShowStationMapping();
      if s.InvalidFileId? {
        return Stopped(s.fileBase);
      }
      propGrid := FillGrid(settings.properties);
      result := PageShown;
    }

    /**
     * The first sections of `update_page`: the dependent-parameter
     * combobox offers the parameters of the settings (a failing refresh of
     * the listbox is swallowed), and the flag and mandatory-column grids
     * show their sections.
     */
    method ShowDependentsAndGrids()
      requires FitsGrids(settings)
      modifies this`dependentItems, this`parameterList, this`listboxItems, this`listboxSelected
      modifies this`flagGrid, this`manColGrid
      ensures dependentItems == Keys(settings.dependent)
      ensures ListboxRefreshed(old(parameterList), old(listboxItems), old(listboxSelected))
      ensures GridShows(flagGrid, settings.flags) && GridShows(manColGrid, ManColRows(settings.mandatoryColumns))
    {
      dependentItems := Keys(settings.dependent);
      var ignored := UpdateDependentListbox();
      flagGrid := FillGrid(settings.flags);
      manColGrid := FillManColGrid(settings.mandatoryColumns);
    }

    /**
     * `update_page`: the dependent parameters (whose failures are
     * swallowed), the flags, the mandatory columns, the parameter mapping,
     * the station mapping and the properties, in this order; a refused
     * mapping file stops it there.
     */
    method UpdatePage() returns (result: PageResult)
      requires FitsGrids(settings)
      modifies this`dependentItems, this`parameterList, this`listboxItems, this`listboxSelected
      modifies this`flagGrid, this`manColGrid, this`propGrid, this`parameterMapping, this`stationMapping
      ensures dependentItems == Keys(settings.dependent)
      ensures ListboxRefreshed(old(parameterList), old(listboxItems), old(listboxSelected))
      ensures GridShows(flagGrid, settings.flags) && GridShows(manColGrid, ManColRows(settings.mandatoryColumns))
      ensures MappingsShown(result,
                ShowMapping(old(parameterMapping), settings.parameterMapping, ParameterMappingKeys, columnsInFile,
                            ParameterColumns),
                ShowMapping(old(stationMapping), settings.stationMapping, StationMappingKeys, columnsInFile,
                            StationColumns),
                old(parameterMapping), old(stationMapping), old(propGrid))
    {
      ShowDependentsAndGrids();
      result := ShowMappingsAndProperties();
    }

    /** `_on_select_file`: the chosen file's settings are loaded and shown. */
    method SelectFile(choice: String, loaded: Settings) returns (result: PageResult)
      requires FitsGrids(loaded)
      modifies this`fileChoice, this`settings
      modifies this`dependentItems, this`parameterList, this`listboxItems, this`listboxSelected
      modifies this`flagGrid, this`manColGrid, this`propGrid, this`parameterMapping, this`stationMapping
      ensures fileChoice == choice && settings == loaded
      ensures dependentItems == Keys(loaded.dependent)
      ensures ListboxRefreshed(old(parameterList), old(listboxItems), old(listboxSelected))
      ensures GridShows(flagGrid, loaded.flags) && GridShows(manColGrid, ManColRows(loaded.mandatoryColumns))
      ensures MappingsShown(result,
                ShowMapping(old(parameterMapping), loaded.parameterMapping, ParameterMappingKeys, columnsInFile,
                            ParameterColumns),
                ShowMapping(old(stationMapping), loaded.stationMapping, StationMappingKeys, columnsInFile,
                            StationColumns),
                old(parameterMapping), old(stationMapping), old(propGrid))
    {
      fileChoice := choice;
      settings := loaded;
      result := UpdatePage();
    }

    /** `_save_file`: a save the library refuses only warns. */
    method SaveFile(saveAllowed: bool)
      modifies this`saved, this`notices
      ensures saveAllowed ==> saved == old(saved) + [settings.fileName] && notices == old(notices)
      ensures !saveAllowed ==>
                saved == old(saved)
                && notices == old(notices) + [Warning("Saving Sampling type settings", settings.fileName)]
    {
      if saveAllowed {
        saved := saved + [settings.fileName];
      } else {
        notices := notices + [Warning("Saving Sampling type settings", settings.fileName)];
      }
    }

    /**
     * "Save file" in the popup of `_save_file_as`: no name only tells the
     * user so; the name of an existing file needs the user's consent, and
     * without it nothing happens. Otherwise the settings take the new name
     * (even when the library then refuses the save), and a save that goes
     * through adds the file to the files offered and selects it. The popup
     * closes in both of these cases and stays open in the other two.
     */
    method SaveFileAs(name: String, overwrite: bool, saveAllowed: bool) returns (closed: bool)
      modifies this`notices, this`settings, this`saved, this`settingsFiles, this`fileItems, this`fileChoice
      ensures name == [] ==>
                !closed && notices == old(notices) + [Information("Save file", "No file name selected")]
                && settings == old(settings) && saved == old(saved) && settingsFiles == old(settingsFiles)
                && fileItems == old(fileItems) && fileChoice == old(fileChoice)
      ensures name != [] && name in old(settingsFiles) && !overwrite ==>
                !closed && notices == old(notices) && settings == old(settings) && saved == old(saved)
                && settingsFiles == old(settingsFiles) && fileItems == old(fileItems) && fileChoice == old(fileChoice)
      ensures name != [] && (name !in old(settingsFiles) || overwrite) ==>
                closed && settings == old(settings).(fileName := name)
      ensures name != [] && (name !in old(settingsFiles) || overwrite) && saveAllowed ==>
                saved == old(saved) + [name] && notices == old(notices)
                && (forall f :: f in settingsFiles <==> f in old(settingsFiles) || f == name)
                && fileItems == SortedDistinct(settingsFiles) && fileChoice == name
      ensures name != [] && (name !in old(settingsFiles) || overwrite) && !saveAllowed ==>
                saved == old(saved) && notices == old(notices) + [Warning("Saving Sampling type settings", name)]
                && settingsFiles == old(settingsFiles) && fileItems == old(fileItems) && fileChoice == old(fileChoice)
    {
      if name == [] {
        notices := notices + [Information("Save file", "No file name selected")];
        return false;
      }
      if name in settingsFiles && !overwrite {
        return false;
      }
      settings := settings.(fileName := name);
      if saveAllowed {
        saved := saved + [name];
        if name !in settingsFiles {
          settingsFiles := settingsFiles + [name];
        }
        fileItems := SortedDistinct(settingsFiles);
        fileChoice := name;
      } else {
        notices := notices + [Warning("Saving Sampling type settings", name)];
      }
      closed := true;
    }
  }

  /** Refreshing the grid of a column chosen in the popup shows what Ok wrote into its cell. */
  lemma OkMatchesRefresh(columns: Dict<ColumnSpec>, item: String, chosen: ColumnSpec)
    ensures Get(Set(columns, item, chosen), item) == Some(chosen)
    ensures exists i :: 0 <= i < |Set(columns, item, chosen)| && ManColRows(Set(columns, item, chosen))[i] == (item, Shown(chosen))
  {
    GetSetSame(columns, item, chosen);
    var d := Set(columns, item, chosen);
    var i :| 0 <= i < |d| && d[i] == (item, chosen);
    assert ManColRows(d)[i] == (item, Shown(chosen));
  }
}
