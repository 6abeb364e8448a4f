/**
  * `create_report_directory`: the report directory
  * `reports/<year>/<key>/<month>/report_<n>` with the least `n >= 1` that
  * does not exist yet, created with `os.makedirs(..., exist_ok=True)`.
  * The filesystem is the set of paths that exist.
  */
module ReportDirs {
  import opened Strings
  import opened Numbers

  /** `os.path.join(base, f"report_{n}")`. */
  function ReportPath(base: string, n: nat): string
  {
    base + "/report_" + ShowNat(n)
  }

  /** `os.path.join("reports", year, key, month)`. */
  function BaseDir(year: string, key: string, month: string): string
  {
    "reports/" + year + "/" + key + "/" + month
  }

  /** The proper ancestors of a path: its prefixes that end before a `/`. */
  function Ancestors(dir: string): set<string>
  {
    set i | 0 < i < |dir| && dir[i] == '/' :: dir[..i]
  }

  /** `os.makedirs(dir, exist_ok=True)`: the directory and all its ancestors exist afterwards. */
  function Makedirs(fs: set<string>, dir: string): (r: set<string>)
    ensures fs <= r && dir in r
    ensures forall p :: p in r && p !in fs ==> p == dir || |p| < |dir|
  {
    fs + {dir} + Ancestors(dir)
  }

  /** `n` is the number the allocation loop stops at. */
  ghost predicate IsLeastFree(fs: set<string>, base: string, n: nat)
  {
    n >= 1 && ReportPath(base, n) !in fs
    && forall k :: 1 <= k < n ==> ReportPath(base, k) in fs
  }

  /** `dir` is the directory the allocation under `base` creates on `fs`. */
  ghost predicate Allocated(fs: set<string>, base: string, dir: string)
  {
    exists n: nat :: IsLeastFree(fs, base, n) && dir == ReportPath(base, n)
  }

  /** Different numbers give different directories. */
  lemma {:induction false} ReportPathInjective(base: string, m: nat, n: nat)
    requires ReportPath(base, m) == ReportPath(base, n)
    ensures m == n
  {
    var t := |base| + 8;
    assert ReportPath(base, m)[t..] == ShowNat(m);
    assert ReportPath(base, n)[t..] == ShowNat(n);
    ShowNatInjective(m, n);
  }

  /**
    * The `while os.path.exists(...)` loop: counts up from 1 to the first
    * report number whose directory is missing. It terminates because every
    * number it passes names a different existing path.
    */
  method LeastFreeNumber(fs: set<string>, base: string) returns (n: nat)
    ensures IsLeastFree(fs, base, n)
  {
    n := 1;
    ghost var seen: set<string> := {};
    while ReportPath(base, n) in fs
      invariant n >= 1
      invariant seen <= fs && |seen| == n - 1
      invariant forall k :: 1 <= k < n ==> ReportPath(base, k) in fs
      invariant forall p :: p in seen ==> exists k :: 1 <= k < n && p == ReportPath(base, k)
      decreases |fs| - |seen|
    {
      var p := ReportPath(base, n);
      if p in seen {
        var k :| 1 <= k < n && p == ReportPath(base, k);
        ReportPathInjective(base, k, n);
        assert false;
      }
      assert fs == (seen + {p}) + (fs - (seen + {p}));
      seen := seen + {p};
      n := n + 1;
    }
  }

  /**
    * Allocation under `base`: the least free report directory, which exists
    * afterwards together with its ancestors.
    */
  method CreateReportDirectory(fs: set<string>, base: string) returns (n: nat, dir: string, after: set<string>)
    ensures IsLeastFree(fs, base, n) && dir == ReportPath(base, n)
    ensures after == Makedirs(fs, dir)
  {
    n := LeastFreeNumber(fs, base);
    dir := ReportPath(base, n);
    after := Makedirs(fs, dir);
  }

  /** The loop's stopping number is determined by the filesystem. */
  lemma {:induction false} LeastFreeUnique(fs: set<string>, base: string, m: nat, n: nat)
    requires IsLeastFree(fs, base, m) && IsLeastFree(fs, base, n)
    ensures m == n
  {
  }

  /** An allocation never returns a number that a previous allocation returned: the next one is larger. */
  lemma {:induction false} NextAllocationLarger(fs: set<string>, base: string, n: nat, m: nat)
    requires IsLeastFree(fs, base, n)
    requires IsLeastFree(Makedirs(fs, ReportPath(base, n)), base, m)
    ensures m > n
  {
  }

  /** No report directory exists under `base`. */
  ghost predicate FreshBase(fs: set<string>, base: string)
  {
    forall k: nat :: ReportPath(base, k) !in fs
  }

  /** On a fresh base, two consecutive allocations yield `report_1` then `report_2`. */
  lemma {:induction false} FreshBaseOneThenTwo(fs: set<string>, base: string)
    requires FreshBase(fs, base)
    ensures IsLeastFree(fs, base, 1)
    ensures IsLeastFree(Makedirs(fs, ReportPath(base, 1)), base, 2)
  {
    var d1 := ReportPath(base, 1);
    var d2 := ReportPath(base, 2);
    assert ShowNat(1) == "1" && ShowNat(2) == "2";
    assert |d2| == |d1|;
    if d2 == d1 {
      ReportPathInjective(base, 1, 2);
    }
    assert d2 !in fs;
  }

  /** How the address-keyed allocation (`tg_v9_work.py`, `tg_v10.py`) ends. */
  datatype Allocation =
    | Created(number: nat, dir: string)
    | UnknownHouse   // `ValueError` raised by the membership check
    | NoAddress      // `IndexError` from taking the first address of an empty list

  /**
    * `create_report_directory(house_number)` of the address-keyed variants:
    * the directory is named after the first address listed for the house.
    */
  method CreateForHouse(table: map<string, seq<string>>, house: string, year: string, month: string, fs: set<string>)
    returns (r: Allocation, after: set<string>)
    ensures house !in table ==> r == UnknownHouse && after == fs
    ensures house in table && table[house] == [] ==> r == NoAddress && after == fs
    ensures house in table && table[house] != [] ==>
      r.Created? && IsLeastFree(fs, BaseDir(year, table[house][0], month), r.number)
      && r.dir == ReportPath(BaseDir(year, table[house][0], month), r.number)
      && after == Makedirs(fs, r.dir)
  {
    if house !in table {
      return UnknownHouse, fs;
    }
    if table[house] == [] {
      return NoAddress, fs;
    }
    var n, dir;
    n, dir, after := CreateReportDirectory(fs, BaseDir(year, table[house][0], month));
    r := Created(n, dir);
  }
}
