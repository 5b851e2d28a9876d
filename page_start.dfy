/**
 * The start page: a 4 x 8 grid of frames, and one button per page to
 * open, placed in the grid cell by cell in the sorted order of the button
 * labels.
 */
module StartPage {
  import opened Text
  import opened Maybe
  import opened Dicts
  import opened SortedSets

  const Rows: nat := 4
  const Columns: nat := 8

  /** A grid cell; a frame of the grid is identified by the cell it is placed in. */
  datatype Cell = Cell(row: nat, column: nat)

  /** A button: its label, the page its command shows, its background colour and the frame holding it. */
  datatype Button = Button(text: String, page: String, color: String, frame: Cell)

  /** Button labels and the page each one opens, in the order they are written. */
  const ButtonTexts: Dict<String> :=
    [("Ferrybox\nand\nfixed platforms", "PageTimeSeries"),
     ("CTD Profiles", "PageProfile"),
     ("Sampling Type Settings", "PageSamplingTypeSettings")]

  const ButtonColors: Dict<String> :=
    [("PageTimeSeries", "sandybrown"),
     ("PageProfile", "lightblue"),
     ("PageSamplingTypeSettings", "green")]

  /** The cell of the `k`-th button: the column counter wraps after the last column. */
  function GridCell(k: nat): (c: Cell)
    ensures c.column < Columns
    ensures c.row * Columns + c.column == k
  {
    Cell(k / Columns, k % Columns)
  }

  /** Advancing the counter moves one column right, or to the start of the next row after the last column. */
  lemma GridCellNext(k: nat)
    ensures GridCell(k + 1)
         == if GridCell(k).column + 1 < Columns then Cell(GridCell(k).row, GridCell(k).column + 1)
            else Cell(GridCell(k).row + 1, 0)
  {
    var c := GridCell(k);
    if c.column + 1 < Columns {
      assert k + 1 == c.row * Columns + (c.column + 1);
    } else {
      assert k + 1 == (c.row + 1) * Columns + 0;
    }
  }

  /** The counter of row `r` and column `c` is the `r * Columns + c`-th button. */
  lemma GridCellAt(r: nat, c: nat)
    requires c < Columns
    ensures GridCell(r * Columns + c) == Cell(r, c)
  {
  }

  /** Different buttons get different cells. */
  lemma GridCellInjective(j: nat, k: nat)
    requires GridCell(j) == GridCell(k)
    ensures j == k
  {
  }

  /** The `k`-th button lands inside the grid exactly when fewer than 32 buttons come before it. */
  lemma GridCellInside(k: nat)
    ensures GridCell(k).row < Rows <==> k < Rows * Columns
  {
  }

  /** `sorted(button_texts)`: the labels in code-point order. */
  lemma {:induction false} ButtonOrder()
    ensures SortedDistinct(Keys(ButtonTexts))
         == ["CTD Profiles", "Ferrybox\nand\nfixed platforms", "Sampling Type Settings"]
  {
    var s: seq<String> := ["CTD Profiles", "Ferrybox\nand\nfixed platforms", "Sampling Type Settings"];
    assert Less(s[0], s[1]) && Less(s[1], s[2]) && Less(s[0], s[2]);
    assert StrictlySorted(s);
    assert Keys(ButtonTexts) == [s[1], s[0], s[2]];
    SortedDistinctOfSame(Keys(ButtonTexts), s);
  }

  /** No two entries of a table share a value. */
  predicate DistinctValues(d: Dict<String>) {
    forall i, j :: 0 <= i < j < |d| ==> d[i].1 != d[j].1
  }

  /** Every label opens a page of its own, and every page has a colour. */
  predicate ButtonTablesAgree(texts: Dict<String>, colors: Dict<String>) {
    DistinctKeys(texts) && DistinctValues(texts)
    && forall t :: t in Keys(texts) ==> Get(texts, t).value in Keys(colors)
  }

  /** `button_texts[text]`. */
  function PageOf(texts: Dict<String>, text: String): (page: String)
    requires text in Keys(texts)
    ensures (text, page) in texts
  {
    Get(texts, text).value
  }

  /** `button_colors[page]`. */
  function ColorOf(colors: Dict<String>, page: String): String
    requires page in Keys(colors)
  {
    Get(colors, page).value
  }

  /** Different labels open different pages, so no button replaces another. */
  lemma PagesDistinct(texts: Dict<String>, a: String, b: String)
    requires DistinctValues(texts)
    requires a in Keys(texts) && b in Keys(texts) && a != b
    ensures PageOf(texts, a) != PageOf(texts, b)
  {
    var i :| 0 <= i < |texts| && texts[i] == (a, PageOf(texts, a));
    var j :| 0 <= j < |texts| && texts[j] == (b, PageOf(texts, b));
    assert i != j;
    if i < j {} else {}
  }

  /** The plugin's two tables agree, and the sorted labels with their pages and colours are these. */
  lemma ButtonTable()
    ensures ButtonTablesAgree(ButtonTexts, ButtonColors)
    ensures SortedDistinct(Keys(ButtonTexts))
         == ["CTD Profiles", "Ferrybox\nand\nfixed platforms", "Sampling Type Settings"]
    ensures LabelsOf(ButtonTexts, SortedDistinct(Keys(ButtonTexts)))
    ensures PageOf(ButtonTexts, "Ferrybox\nand\nfixed platforms") == "PageTimeSeries"
    ensures PageOf(ButtonTexts, "CTD Profiles") == "PageProfile"
    ensures PageOf(ButtonTexts, "Sampling Type Settings") == "PageSamplingTypeSettings"
    ensures ColorOf(ButtonColors, "PageTimeSeries") == "sandybrown"
    ensures ColorOf(ButtonColors, "PageProfile") == "lightblue"
    ensures ColorOf(ButtonColors, "PageSamplingTypeSettings") == "green"
  {
    assert Keys(ButtonTexts) == ["Ferrybox\nand\nfixed platforms", "CTD Profiles", "Sampling Type Settings"];
    assert Keys(ButtonColors) == ["PageTimeSeries", "PageProfile", "PageSamplingTypeSettings"];
    ButtonOrder();
  }

  /** The button the `k`-th label gets: its page, that page's colour, and the frame of cell `GridCell(k)`. */
  function ButtonFor(texts: Dict<String>, colors: Dict<String>, text: String, k: nat): (b: Button)
    requires ButtonTablesAgree(texts, colors) && text in Keys(texts)
    ensures b.page == PageOf(texts, text)
  {
    var page := PageOf(texts, text);
    Button(text, page, ColorOf(colors, page), GridCell(k))
  }

  /** Every entry of `order` is a label of the table. */
  predicate LabelsOf(texts: Dict<String>, order: seq<String>) {
    forall j :: 0 <= j < |order| ==> order[j] in Keys(texts)
  }

  /** `b` holds the buttons of the first `k` labels of `order` and no others. */
  ghost predicate PlacedUpTo(b: map<String, Button>, texts: Dict<String>, colors: Dict<String>,
                             order: seq<String>, k: nat)
    requires ButtonTablesAgree(texts, colors)
    requires LabelsOf(texts, order) && k <= |order|
  {
    (forall j :: 0 <= j < k ==>
       PageOf(texts, order[j]) in b && b[PageOf(texts, order[j])] == ButtonFor(texts, colors, order[j], j))
    && (forall p :: p in b ==> p in Values(texts))
  }

  /** Placing the next label's button keeps the earlier buttons: no two labels share a page. */
  lemma PlaceNext(b: map<String, Button>, texts: Dict<String>, colors: Dict<String>, order: seq<String>, k: nat)
    requires ButtonTablesAgree(texts, colors)
    requires LabelsOf(texts, order) && NoDuplicates(order) && k < |order|
    requires PlacedUpTo(b, texts, colors, order, k)
    ensures PlacedUpTo(b[PageOf(texts, order[k]) := ButtonFor(texts, colors, order[k], k)], texts, colors, order, k + 1)
  {
    var page := PageOf(texts, order[k]);
    var b' := b[page := ButtonFor(texts, colors, order[k], k)];
    PlaceNextKeeps(b, texts, colors, order, k);
    PlaceNextPage(b, texts, order[k], ButtonFor(texts, colors, order[k], k));
  }

  lemma PlaceNextKeeps(b: map<String, Button>, texts: Dict<String>, colors: Dict<String>, order: seq<String>, k: nat)
    requires ButtonTablesAgree(texts, colors)
    requires LabelsOf(texts, order) && NoDuplicates(order) && k < |order|
    requires forall j :: 0 <= j < k ==>
       PageOf(texts, order[j]) in b && b[PageOf(texts, order[j])] == ButtonFor(texts, colors, order[j], j)
    ensures var b' := b[PageOf(texts, order[k]) := ButtonFor(texts, colors, order[k], k)];
      forall j :: 0 <= j < k + 1 ==>
       PageOf(texts, order[j]) in b' && b'[PageOf(texts, order[j])] == ButtonFor(texts, colors, order[j], j)
  {
    var b' := b[PageOf(texts, order[k]) := ButtonFor(texts, colors, order[k], k)];
    forall j | 0 <= j < k
      ensures PageOf(texts, order[j]) in b'
      ensures b'[PageOf(texts, order[j])] == ButtonFor(texts, colors, order[j], j)
    {
      PagesDistinct(texts, order[j], order[k]);
    }
  }

  lemma PlaceNextPage(b: map<String, Button>, texts: Dict<String>, text: String, button: Button)
    requires text in Keys(texts)
    requires forall p :: p in b ==> p in Values(texts)
    ensures forall p :: p in b[PageOf(texts, text) := button] ==> p in Values(texts)
  {
    var page := PageOf(texts, text);
    var i :| 0 <= i < |texts| && texts[i] == (text, page);
    assert Values(texts)[i] == page;
  }

  /** The buttons as the start page shows them. */
  predicate StartButtons(b: map<String, Button>) {
    b.Keys == {"PageTimeSeries", "PageProfile", "PageSamplingTypeSettings"}
    && b["PageProfile"] == Button("CTD Profiles", "PageProfile", "lightblue", Cell(0, 0))
    && b["PageTimeSeries"] == Button("Ferrybox\nand\nfixed platforms", "PageTimeSeries", "sandybrown", Cell(0, 1))
    && b["PageSamplingTypeSettings"]
       == Button("Sampling Type Settings", "PageSamplingTypeSettings", "green", Cell(0, 2))
  }

  /** The sorted labels of the plugin's buttons. */
  const PluginOrder: seq<String> := ["CTD Profiles", "Ferrybox\nand\nfixed platforms", "Sampling Type Settings"]

  /**
   * Placing the plugin's three buttons: "CTD Profiles" sorts first and
   * takes the top-left cell, the other two follow in the same row.
   */
  lemma PluginButtons(b: map<String, Button>)
    requires ButtonTablesAgree(ButtonTexts, ButtonColors)
    requires LabelsOf(ButtonTexts, PluginOrder)
    requires PlacedUpTo(b, ButtonTexts, ButtonColors, PluginOrder, 3)
    ensures StartButtons(b)
  {
    PluginPages();
    PluginButtonsFor();
    KeysOfThree(b, Values(ButtonTexts));
  }

  /** A map whose keys are among three strings, each of them a key, has exactly those keys. */
  lemma KeysOfThree<V>(b: map<String, V>, s: seq<String>)
    requires |s| == 3 && s[0] in b && s[1] in b && s[2] in b
    requires forall p :: p in b ==> p in s
    ensures b.Keys == {s[0], s[1], s[2]}
  {
    forall p | p in b ensures p == s[0] || p == s[1] || p == s[2] {
      var i :| 0 <= i < 3 && s[i] == p;
    }
  }

  /** The page each sorted label opens, and the pages of the table in order. */
  lemma PluginPages()
    requires ButtonTablesAgree(ButtonTexts, ButtonColors)
    ensures PageOf(ButtonTexts, PluginOrder[0]) == "PageProfile"
    ensures PageOf(ButtonTexts, PluginOrder[1]) == "PageTimeSeries"
    ensures PageOf(ButtonTexts, PluginOrder[2]) == "PageSamplingTypeSettings"
    ensures Values(ButtonTexts) == ["PageTimeSeries", "PageProfile", "PageSamplingTypeSettings"]
  {
    ButtonTable();
  }

  /** The button of each sorted label: its page, that page's colour and the cell of its position. */
  lemma PluginButtonsFor()
    requires ButtonTablesAgree(ButtonTexts, ButtonColors)
    ensures ButtonFor(ButtonTexts, ButtonColors, PluginOrder[0], 0)
         == Button("CTD Profiles", "PageProfile", "lightblue", Cell(0, 0))
    ensures ButtonFor(ButtonTexts, ButtonColors, PluginOrder[1], 1)
         == Button("Ferrybox\nand\nfixed platforms", "PageTimeSeries", "sandybrown", Cell(0, 1))
    ensures ButtonFor(ButtonTexts, ButtonColors, PluginOrder[2], 2)
         == Button("Sampling Type Settings", "PageSamplingTypeSettings", "green", Cell(0, 2))
  {
    PluginPages();
    ButtonTable();
    GridCellAt(0, 0);
    GridCellAt(0, 1);
    GridCellAt(0, 2);
  }

  /** What placing the plugin's buttons needs of its tables: they agree, and three labels fit the grid. */
  lemma ButtonTableFits()
    ensures ButtonTablesAgree(ButtonTexts, ButtonColors)
    ensures SortedDistinct(Keys(ButtonTexts)) == PluginOrder
    ensures LabelsOf(ButtonTexts, PluginOrder)
  {
    ButtonTable();
  }

  /** Row `r` of the grid holds a frame in each of its first `n` columns and nowhere else. */
  ghost predicate RowOfFrames(cells: map<nat, Cell>, r: nat, n: nat) {
    (forall c :: c in cells <==> 0 <= c < n)
    && (forall c :: c in cells ==> cells[c] == Cell(r, c))
  }

  /** `Rows` rows of `Columns` frames each, every frame sitting in its own cell. */
  ghost predicate Grid(frames: map<nat, map<nat, Cell>>) {
    (forall r :: r in frames <==> 0 <= r < Rows)
    && (forall r :: r in frames ==> RowOfFrames(frames[r], r, Columns))
  }

  lemma GridFrame(frames: map<nat, map<nat, Cell>>, r: nat, c: nat)
    requires Grid(frames) && r < Rows && c < Columns
    ensures r in frames && c in frames[r] && frames[r][c] == Cell(r, c)
  {
  }

  /** The buttons of `startup`, placed label by label in sorted order. */
  method PlaceAll(texts: Dict<String>, colors: Dict<String>, grid: map<nat, map<nat, Cell>>)
    returns (b: map<String, Button>)
    requires Grid(grid) && ButtonTablesAgree(texts, colors)
    requires |SortedDistinct(Keys(texts))| <= Rows * Columns
    ensures PlacedUpTo(b, texts, colors, SortedDistinct(Keys(texts)), |SortedDistinct(Keys(texts))|)
  {
    var order := SortedDistinct(Keys(texts));
    StrictlySortedNoDuplicates(order);
    assert LabelsOf(texts, order) by {
      forall j | 0 <= j < |order| ensures order[j] in Keys(texts) {
        assert order[j] in order;
      }
    }
    b := PlaceInOrder(texts, colors, grid, order);
  }

  /** The loop of `startup` over the labels in `order`: the column counter wraps after the last column. */
  method PlaceInOrder(texts: Dict<String>, colors: Dict<String>, grid: map<nat, map<nat, Cell>>, order: seq<String>)
    returns (b: map<String, Button>)
    requires Grid(grid) && ButtonTablesAgree(texts, colors)
    requires LabelsOf(texts, order) && NoDuplicates(order) && |order| <= Rows * Columns
    ensures PlacedUpTo(b, texts, colors, order, |order|)
  {
    b := map[];
    var row: nat := 0;
    var column: nat := 0;
    var k := 0;
    while k < |order|
      invariant k <= |order|
      invariant column < Columns && row * Columns + column == k
      invariant PlacedUpTo(b, texts, colors, order, k)
    {
      var text := order[k];
      var page := PageOf(texts, text);
      var color := ColorOf(colors, page);
      GridCellAt(row, column);
      GridCellInside(k);
      GridFrame(grid, row, column);
      var frame := grid[row][column];
      assert Button(text, page, color, frame) == ButtonFor(texts, colors, text, k);
      PlaceNext(b, texts, colors, order, k);
      b := b[page := Button(text, page, color, frame)];
      column := column + 1;
      if column >= Columns {
        column := 0;
        row := row + 1;
      }
      k := k + 1;
    }
  }

  class PageStart {
    /** `frames[r][c]`: the frame at row `r`, column `c`. */
    var frames: map<nat, map<nat, Cell>>
    /** `texts[r]`: one (empty) dictionary per row. */
    var texts: map<nat, map<nat, String>>
    var buttonTexts: Dict<String>
    var buttonColors: Dict<String>
    /** `button[page]`: the button that shows `page`. */
    var button: map<String, Button>

    constructor ()
      ensures frames == map[] && texts == map[] && button == map[]
      ensures buttonTexts == [] && buttonColors == []
    {
      frames := map[];
      texts := map[];
      buttonTexts := [];
      buttonColors := [];
      button := map[];
    }

    /** Every cell of the grid holds its frame, and every row has its empty text dictionary. */
    ghost predicate GridBuilt()
      reads this`frames, this`texts
    {
      Grid(frames)
      && (forall r :: r in texts <==> 0 <= r < Rows)
      && (forall r :: r in texts ==> texts[r] == map[])
    }

    /** Builds the frame grid, then places the plugin's buttons into it. */
    method Startup()
      modifies this
      ensures GridBuilt()
      ensures buttonTexts == ButtonTexts && buttonColors == ButtonColors
      ensures StartButtons(button)
    {
      BuildGrid();
      SetButtons();
    }

    /** The plugin's label and colour tables, and one button per label. */
    method SetButtons()
      requires GridBuilt()
      modifies this`buttonTexts, this`buttonColors, this`button
      ensures buttonTexts == ButtonTexts && buttonColors == ButtonColors
      ensures StartButtons(button)
    {
      buttonTexts := ButtonTexts;
      buttonColors := ButtonColors;
      ButtonTableFits();
      PlaceButtons();
      PluginButtons(button);
    }

    /** The frame grid, filled row by row. */
    method BuildGrid()
      modifies this`frames, this`texts
      ensures GridBuilt()
    {
      frames := map[];
      texts := map[];
      var r: nat := 0;
      while r < Rows
        invariant r <= Rows
        invariant forall i :: i in frames <==> 0 <= i < r
        invariant forall i :: i in texts <==> 0 <= i < r
        invariant forall i :: i in frames ==> RowOfFrames(frames[i], i, Columns)
        invariant forall i :: i in texts ==> texts[i] == map[]
      {
        var cells: map<nat, Cell> := map[];
        var c: nat := 0;
        while c < Columns
          invariant c <= Columns
          invariant RowOfFrames(cells, r, c)
        {
          cells := cells[c := Cell(r, c)];
          c := c + 1;
        }
        frames := frames[r := cells];
        texts := texts[r := map[]];
        r := r + 1;
      }
    }

    /**
     * One button per label, in the sorted order of the labels: the `k`-th
     * goes into the frame of cell `GridCell(k)`, shows its page and has
     * that page's colour.
     */
    method PlaceButtons()
      requires GridBuilt()
      requires ButtonTablesAgree(buttonTexts, buttonColors)
      requires |SortedDistinct(Keys(buttonTexts))| <= Rows * Columns
      modifies this`button
      ensures PlacedUpTo(button, buttonTexts, buttonColors, SortedDistinct(Keys(buttonTexts)),
                         |SortedDistinct(Keys(buttonTexts))|)
    {
      button := PlaceAll(buttonTexts, buttonColors, frames);
    }
  }
}
