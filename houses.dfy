/**
  * `Houses.py`: the table of house numbers to addresses. Every row whose
  * first cell is a text containing `д.` contributes its address, filed
  * under the stripped text after the last `д.`; the lists keep row order
  * and the keys keep the order in which they first appear.
  */
module Houses {
  import opened Strings
  import opened Sheets

  const HouseMark := "д."

  /** `isinstance(address, str) and "д." in address`. */
  predicate Contributes(c: Cell)
  {
    c.Text? && Contains(c.text, HouseMark)
  }

  /** `address.split("д.")[-1].strip()`. */
  function HouseKey(address: string): string
  {
    Strip(LastPiece(address, HouseMark))
  }

  /** The dictionary being built: its keys in insertion order and the address list of each. */
  datatype HouseDict = HouseDict(keys: seq<string>, lists: map<string, seq<string>>)

  const EmptyDict := HouseDict([], map[])

  predicate Distinct(keys: seq<string>)
  {
    forall i, j :: 0 <= i < j < |keys| ==> keys[i] != keys[j]
  }

  /** Keys listed once each, exactly the keys that have a list, no list empty. */
  predicate ValidDict(d: HouseDict)
  {
    Distinct(d.keys)
    && (forall k :: k in d.lists ==> k in d.keys) && (forall k :: k in d.keys ==> k in d.lists)
    && (forall k :: k in d.lists ==> d.lists[k] != [])
  }

  /** Lines 25-29: append to the key's list, or start a new list. */
  function Insert(d: HouseDict, address: string): HouseDict
  {
    var key := HouseKey(address);
    if key in d.lists then HouseDict(d.keys, d.lists[key := d.lists[key] + [address]])
    else HouseDict(d.keys + [key], d.lists[key := [address]])
  }

  /** The dictionary after the first rows, as the loop leaves it. */
  function HouseTable(cells: seq<Cell>): HouseDict
    decreases |cells|
  {
    if cells == [] then EmptyDict
    else
      var d := HouseTable(cells[..|cells| - 1]);
      var c := cells[|cells| - 1];
      if Contributes(c) then Insert(d, c.text) else d
  }

  /** The `for index, row in data.iterrows()` loop. */
  method BuildHouseDict(cells: seq<Cell>) returns (d: HouseDict)
    ensures d == HouseTable(cells)
  {
    d := EmptyDict;
    var i := 0;
    while i < |cells|
      invariant 0 <= i <= |cells|
      invariant d == HouseTable(cells[..i])
    {
      assert cells[..i + 1][..i] == cells[..i];
      var address := cells[i];
      if address.Text? && Contains(address.text, HouseMark) {
        var key := HouseKey(address.text);
        if key in d.lists {
          d := HouseDict(d.keys, d.lists[key := d.lists[key] + [address.text]]);
        } else {
          d := HouseDict(d.keys + [key], d.lists[key := [address.text]]);
        }
      }
      i := i + 1;
    }
    assert cells[..i] == cells;
  }

  // ---------------------------------------------------------------------
  // A reference definition and what the loop is proved to build.

  /** The contributing addresses whose key is `key`, in row order. */
  function AddressesFor(cells: seq<Cell>, key: string): seq<string>
    decreases |cells|
  {
    if cells == [] then []
    else
      var c := cells[|cells| - 1];
      AddressesFor(cells[..|cells| - 1], key)
      + (if Contributes(c) && HouseKey(c.text) == key then [c.text] else [])
  }

  /** All contributing addresses, in row order. */
  function Contributing(cells: seq<Cell>): seq<string>
    decreases |cells|
  {
    if cells == [] then []
    else
      var c := cells[|cells| - 1];
      Contributing(cells[..|cells| - 1]) + (if Contributes(c) then [c.text] else [])
  }

  /** The list stored under each key is exactly that key's contributing addresses in row order. */
  lemma {:induction false} HouseTableLists(cells: seq<Cell>, key: string)
    ensures key in HouseTable(cells).lists <==> AddressesFor(cells, key) != []
    ensures key in HouseTable(cells).lists ==> HouseTable(cells).lists[key] == AddressesFor(cells, key)
    decreases |cells|
  {
    if cells != [] {
      HouseTableLists(cells[..|cells| - 1], key);
    }
  }

  /** The loop keeps the dictionary well formed. */
  lemma {:induction false} HouseTableValid(cells: seq<Cell>)
    ensures ValidDict(HouseTable(cells))
    decreases |cells|
  {
    if cells != [] {
      var init := cells[..|cells| - 1];
      HouseTableValid(init);
      var d := HouseTable(init);
      var c := cells[|cells| - 1];
      if Contributes(c) && HouseKey(c.text) !in d.lists {
        var ks := d.keys + [HouseKey(c.text)];
        assert forall i :: 0 <= i < |d.keys| ==> ks[i] == d.keys[i];
      }
    }
  }

  /** Every address stored under a key contains `д.` and yields that key again. */
  lemma {:induction false} AddressesKeyed(cells: seq<Cell>, key: string, a: string)
    requires a in AddressesFor(cells, key)
    ensures Contains(a, HouseMark) && HouseKey(a) == key
    ensures exists i :: 0 <= i < |cells| && cells[i] == Text(a)
    decreases |cells|
  {
    var init := cells[..|cells| - 1];
    var c := cells[|cells| - 1];
    if a in AddressesFor(init, key) {
      AddressesKeyed(init, key, a);
      var i :| 0 <= i < |init| && init[i] == Text(a);
      assert cells[i] == init[i];
    } else {
      assert cells[|cells| - 1] == Text(a);
    }
  }

  /** A key is present exactly when some contributing row yields it. */
  lemma {:induction false} KeyPresent(cells: seq<Cell>, key: string)
    ensures key in HouseTable(cells).lists <==>
      exists i :: 0 <= i < |cells| && Contributes(cells[i]) && HouseKey(cells[i].text) == key
    decreases |cells|
  {
    HouseTableLists(cells, key);
    if cells != [] {
      var init := cells[..|cells| - 1];
      KeyPresent(init, key);
      HouseTableLists(init, key);
      forall i | 0 <= i < |init|
        ensures cells[i] == init[i]
      {
      }
    }
  }

  /** The number of addresses stored under the listed keys. */
  function Total(keys: seq<string>, lists: map<string, seq<string>>): nat
  {
    if keys == [] then 0
    else (if keys[0] in lists then |lists[keys[0]]| else 0) + Total(keys[1..], lists)
  }

  lemma {:induction false} TotalUpdateAbsent(keys: seq<string>, lists: map<string, seq<string>>, key: string, v: seq<string>)
    requires key !in keys
    ensures Total(keys, lists[key := v]) == Total(keys, lists)
    decreases |keys|
  {
    if keys != [] {
      TotalUpdateAbsent(keys[1..], lists, key, v);
    }
  }

  lemma {:induction false} TotalUpdatePresent(keys: seq<string>, lists: map<string, seq<string>>, key: string, v: seq<string>)
    requires Distinct(keys) && key in keys && key in lists
    ensures Total(keys, lists[key := v]) + |lists[key]| == Total(keys, lists) + |v|
    decreases |keys|
  {
    if keys[0] == key {
      assert key !in keys[1..] by {
        forall i | 0 <= i < |keys[1..]|
          ensures keys[1..][i] != key
        {
          assert keys[1..][i] == keys[i + 1];
        }
      }
      TotalUpdateAbsent(keys[1..], lists, key, v);
    } else {
      assert key in keys[1..] by {
        var i :| 0 <= i < |keys| && keys[i] == key;
        assert keys[1..][i - 1] == key;
      }
      TotalUpdatePresent(keys[1..], lists, key, v);
    }
  }

  lemma {:induction false} TotalSnoc(keys: seq<string>, lists: map<string, seq<string>>, key: string)
    ensures Total(keys + [key], lists) == Total(keys, lists) + (if key in lists then |lists[key]| else 0)
    decreases |keys|
  {
    if keys == [] {
      assert [key][1..] == [];
    } else {
      assert (keys + [key])[1..] == keys[1..] + [key];
      TotalSnoc(keys[1..], lists, key);
    }
  }

  /** The lists together hold one entry per contributing row. */
  lemma {:induction false} TotalCount(cells: seq<Cell>)
    ensures Total(HouseTable(cells).keys, HouseTable(cells).lists) == |Contributing(cells)|
    decreases |cells|
  {
    if cells != [] {
      var init := cells[..|cells| - 1];
      TotalCount(init);
      HouseTableValid(init);
      var d := HouseTable(init);
      var c := cells[|cells| - 1];
      if Contributes(c) {
        var key := HouseKey(c.text);
        if key in d.lists {
          TotalUpdatePresent(d.keys, d.lists, key, d.lists[key] + [c.text]);
        } else {
          TotalUpdateAbsent(d.keys, d.lists, key, [c.text]);
          TotalSnoc(d.keys, d.lists[key := [c.text]], key);
        }
      }
    }
  }

  /**
    * The key, `LastPiece(address, HouseMark)` stripped, is read after the
    * last `д.`: the address ends with `д.` and that tail, and the tail holds
    * no further `д.`.
    */
  lemma {:induction false} HouseKeyAfterLastMark(address: string)
    requires Contains(address, HouseMark)
    ensures EndsWith(address, HouseMark + LastPiece(address, HouseMark))
    ensures !Contains(LastPiece(address, HouseMark), HouseMark)
  {
    LastPieceAfterSeparator(address, HouseMark);
    LastPieceFree(address, HouseMark);
  }
}
