/**
  * `list_works.py`: the work-type list. Every row with a non-empty first
  * cell yields a name (the stripped text after the cell's last `.`) and
  * its data (the other non-empty cells, space-joined); the first row with
  * a name wins. A first cell that is not text makes `split` raise, and
  * the script then stops without writing anything.
  */
module ListWorks {
  import opened Strings
  import opened Lines
  import opened Sheets

  datatype Row = Row(first: Cell, rest: seq<Cell>)

  /** An entry of `list_works.json`: `Наименование` and `Данные`. */
  datatype Item = Item(name: string, data: string)

  const MaterialsTag := "Материалы."
  const ServicesTag := "Работа/услуги."

  /** `row.iloc[0].split('.')[-1].strip()`. */
  function WorkName(cell: string): string
  {
    Strip(LastPiece(cell, "."))
  }

  /** `str(cell)` for the non-empty cells, in column order. */
  function Shown(cells: seq<Cell>): seq<string>
    decreases |cells|
  {
    if cells == [] then []
    else (if NotNa(cells[0]) then [Str(cells[0])] else []) + Shown(cells[1..])
  }

  /** `" ".join(str(cell) for cell in row.iloc[1:] if pd.notna(cell))`. */
  function RowData(cells: seq<Cell>): string
  {
    Join(Shown(cells), " ")
  }

  /** The names of the work list, in order, as the menus number them. */
  function ItemNames(items: seq<Item>): seq<string>
  {
    seq(|items|, k requires 0 <= k < |items| => items[k].name)
  }

  /** The names of the rows whose first cell is a text. */
  function NamesOf(rows: seq<Row>): set<string>
  {
    set i | 0 <= i < |rows| && rows[i].first.Text? :: WorkName(rows[i].first.text)
  }

  /** A present cell that is not a text (a number, a date, a boolean): it has no `split`. */
  predicate NonText(c: Cell)
  {
    NotNa(c) && !c.Text?
  }

  /** Some first cell is neither missing nor text: `split` raises `AttributeError`. */
  predicate Crashes(rows: seq<Row>)
  {
    exists i :: 0 <= i < |rows| && NonText(rows[i].first)
  }

  /** Reference: one item per row whose name no earlier row had, in row order. */
  function Firsts(rows: seq<Row>): seq<Item>
    decreases |rows|
  {
    if rows == [] then []
    else
      var init := rows[..|rows| - 1];
      var r := rows[|rows| - 1];
      Firsts(init)
      + (if r.first.Text? && WorkName(r.first.text) !in NamesOf(init)
         then [Item(WorkName(r.first.text), RowData(r.rest))] else [])
  }

  /** The row loop with `seen_names`; `None` where the script raises. */
  method FilterWorks(rows: seq<Row>) returns (r: Option<seq<Item>>)
    ensures Crashes(rows) ==> r == None
    ensures !Crashes(rows) ==> r == Some(Firsts(rows))
  {
    var items: seq<Item> := [];
    var seen: set<string> := {};
    var i := 0;
    while i < |rows|
      invariant 0 <= i <= |rows|
      invariant !Crashes(rows[..i])
      invariant seen == NamesOf(rows[..i])
      invariant items == Firsts(rows[..i])
    {
      var row := rows[i];
      RowStep(rows, i);
      if NonText(row.first) {
        NonTextCrashes(rows, i);
        return None;
      }
      if row.first.Text? {
        var name := WorkName(row.first.text);
        NameFilterPasses(row.first.text);
        if !Contains(name, MaterialsTag) && !Contains(name, ServicesTag) {
          if name !in seen {
            seen := seen + {name};
            items := items + [Item(name, RowData(row.rest))];
          }
        }
      }
      i := i + 1;
    }
    assert rows[..i] == rows;
    r := Some(items);
  }

  lemma {:induction false} NonTextCrashes(rows: seq<Row>, i: nat)
    requires i < |rows| && NonText(rows[i].first)
    ensures Crashes(rows)
  {
  }

  /** How the prefix after one more row relates to the prefix before it. */
  lemma {:induction false} RowStep(rows: seq<Row>, i: nat)
    requires i < |rows|
    ensures Crashes(rows[..i + 1]) <==> Crashes(rows[..i]) || NonText(rows[i].first)
    ensures NamesOf(rows[..i + 1]) == NamesOf(rows[..i]) + (if rows[i].first.Text? then {WorkName(rows[i].first.text)} else {})
    ensures Firsts(rows[..i + 1]) == Firsts(rows[..i])
      + (if rows[i].first.Text? && WorkName(rows[i].first.text) !in NamesOf(rows[..i])
         then [Item(WorkName(rows[i].first.text), RowData(rows[i].rest))] else [])
  {
    var init := rows[..i];
    var s := rows[..i + 1];
    assert s[..i] == init;
    assert s == init + [rows[i]];
    NamesSnoc(init, rows[i]);
    forall j | 0 <= j < i
      ensures s[j] == init[j]
    {
    }
    assert s[i] == rows[i];
  }

  lemma {:induction false} NamesSnoc(rows: seq<Row>, r: Row)
    ensures NamesOf(rows + [r]) == NamesOf(rows) + (if r.first.Text? then {WorkName(r.first.text)} else {})
  {
    var s := rows + [r];
    forall i | 0 <= i < |rows|
      ensures s[i] == rows[i]
    {
    }
    assert s[|rows|] == r;
  }

  /** The names of a list of items. */
  function NameSet(items: seq<Item>): set<string>
  {
    set k | 0 <= k < |items| :: items[k].name
  }

  lemma {:induction false} NameSetSnoc(items: seq<Item>, extra: seq<Item>)
    requires |extra| <= 1
    ensures NameSet(items + extra) == NameSet(items) + NameSet(extra)
  {
    var s := items + extra;
    forall k | 0 <= k < |items|
      ensures s[k] == items[k]
    {
    }
    if |extra| == 1 {
      assert s[|items|] == extra[0];
      assert NameSet(extra) == {extra[0].name};
    } else {
      assert s == items;
    }
  }

  // ---------------------------------------------------------------------
  // What the list is proved to be.

  /** A name never contains a `.`: it is cut after the last one. */
  lemma {:induction false} NameHasNoDot(cell: string)
    ensures '.' !in WorkName(cell)
  {
    var last := LastPiece(cell, ".");
    LastPieceFree(cell, ".");
    StripSpec(last);
    var a, b := StripFrom(last), StripTo(last);
    forall k | 0 <= k < |WorkName(cell)|
      ensures WorkName(cell)[k] != '.'
    {
      assert WorkName(cell)[k] == last[a + k];
      OccursAtSingle(last, '.', a + k);
    }
  }

  /** The `"Материалы."`/`"Работа/услуги."` filter never rejects a name: both tags end in a dot. */
  lemma {:induction false} NameFilterPasses(cell: string)
    ensures !Contains(WorkName(cell), MaterialsTag) && !Contains(WorkName(cell), ServicesTag)
  {
    var n := WorkName(cell);
    NameHasNoDot(cell);
    if Contains(n, MaterialsTag) {
      var p :| 0 <= p <= |n| - |MaterialsTag| && OccursAt(n, MaterialsTag, p);
      OccursAtChar(n, MaterialsTag, p, |MaterialsTag| - 1);
    }
    if Contains(n, ServicesTag) {
      var p :| 0 <= p <= |n| - |ServicesTag| && OccursAt(n, ServicesTag, p);
      OccursAtChar(n, ServicesTag, p, |ServicesTag| - 1);
    }
  }

  /** The listed names are exactly the names of the text rows. */
  lemma {:induction false} FirstsNames(rows: seq<Row>)
    ensures NameSet(Firsts(rows)) == NamesOf(rows)
    decreases |rows|
  {
    if rows != [] {
      var init := rows[..|rows| - 1];
      var r := rows[|rows| - 1];
      FirstsNames(init);
      NamesSnoc(init, r);
      assert init + [r] == rows;
      var extra := if r.first.Text? && WorkName(r.first.text) !in NamesOf(init)
        then [Item(WorkName(r.first.text), RowData(r.rest))] else [];
      NameSetSnoc(Firsts(init), extra);
      if extra != [] {
        assert NameSet(extra) == {extra[0].name};
      } else {
        assert NameSet(extra) == {};
      }
    }
  }

  /** No two items share a name. */
  lemma {:induction false} FirstsUnique(rows: seq<Row>)
    ensures forall i, j :: 0 <= i < j < |Firsts(rows)| ==> Firsts(rows)[i].name != Firsts(rows)[j].name
    decreases |rows|
  {
    if rows != [] {
      var init := rows[..|rows| - 1];
      FirstsUnique(init);
      FirstsNames(init);
      var f := Firsts(init);
      var g := Firsts(rows);
      forall k | 0 <= k < |f|
        ensures g[k] == f[k]
      {
      }
    }
  }

  /** Items found in the first rows stay in front: the list grows in row order. */
  lemma {:induction false} FirstsPrefix(rows: seq<Row>, n: nat)
    requires n <= |rows|
    ensures Firsts(rows[..n]) <= Firsts(rows)
    decreases |rows| - n
  {
    if n < |rows| {
      FirstsPrefix(rows, n + 1);
      assert rows[..n + 1][..n] == rows[..n];
    } else {
      assert rows[..n] == rows;
    }
  }

  /**
    * First occurrence wins: each item comes from a text row that no
    * earlier text row shares a name with, and carries that row's data.
    */
  lemma {:induction false} FirstsOrigin(rows: seq<Row>, k: nat) returns (i: nat)
    requires k < |Firsts(rows)|
    ensures i < |rows| && rows[i].first.Text?
    ensures Firsts(rows)[k] == Item(WorkName(rows[i].first.text), RowData(rows[i].rest))
    ensures forall j :: 0 <= j < i && rows[j].first.Text? ==> WorkName(rows[j].first.text) != Firsts(rows)[k].name
    decreases |rows|
  {
    var init := rows[..|rows| - 1];
    var f := Firsts(init);
    if k < |f| {
      i := FirstsOrigin(init, k);
      assert rows[i] == init[i];
      forall j | 0 <= j < i
        ensures rows[j] == init[j]
      {
      }
    } else {
      i := |rows| - 1;
      forall j | 0 <= j < i && rows[j].first.Text?
        ensures WorkName(rows[j].first.text) != Firsts(rows)[k].name
      {
        assert init[j] == rows[j];
      }
    }
  }

  /** Every item's name is free of dots, so no item is ever filtered. */
  lemma {:induction false} FirstsNoDot(rows: seq<Row>, k: nat)
    requires k < |Firsts(rows)|
    ensures '.' !in Firsts(rows)[k].name
  {
    var i := FirstsOrigin(rows, k);
    NameHasNoDot(rows[i].first.text);
  }

  /** A data string splits back into the cells it joins when no cell's text holds a space. */
  lemma {:induction false} RowDataPieces(cells: seq<Cell>)
    requires Shown(cells) != []
    requires forall k :: 0 <= k < |Shown(cells)| ==> ' ' !in Shown(cells)[k]
    ensures Split(RowData(cells), " ") == Shown(cells)
  {
    JoinSplit(Shown(cells));
  }

  lemma {:induction false} JoinSplit(parts: seq<string>)
    requires parts != [] && forall k :: 0 <= k < |parts| ==> ' ' !in parts[k]
    ensures Split(Join(parts, " "), " ") == parts
    decreases |parts|
  {
    if |parts| == 1 {
      forall j | 0 <= j <= |parts[0]| - 1
        ensures !OccursAt(parts[0], " ", j)
      {
        OccursAtSingle(parts[0], ' ', j);
      }
      SplitWithoutSeparator(parts[0], " ");
    } else {
      JoinSplit(parts[1..]);
      SplitAfterHead(parts[0], " ", Join(parts[1..], " "));
    }
  }
}
