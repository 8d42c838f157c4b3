/** `get_id_module_mapping` and `get_ids_by_module_names`: resolving module
    names to module ids. The rows of the module query are a parameter, or
    the error the query raised.

    As written, `db.execute` returns only the first column of each row, so
    the mapping is built from bare name strings (`GetIdModuleMappingAsWritten`).
    The rest of the module models the evidently intended mapping over
    `(name, id)` rows. */
module ModuleLookup {
  import opened Wrappers
  import Sorting

  /** One `{"id": ..., "name": ...}` entry of the mapping. */
  datatype ModuleEntry<I> = ModuleEntry(id: I, name: string)

  function IdRank(m: ModuleEntry<int>): real {
    m.id as real
  }

  /** The query rows `(name, id)` as entries. */
  function Entries(rows: seq<(string, int)>): (r: seq<ModuleEntry<int>>)
    ensures |r| == |rows|
    ensures forall i :: 0 <= i < |rows| ==> r[i] == ModuleEntry(rows[i].1, rows[i].0)
  {
    seq(|rows|, i requires 0 <= i < |rows| => ModuleEntry(rows[i].1, rows[i].0))
  }

  /** `get_id_module_mapping`: the entries sorted by id, `[]` when the
      query raises. */
  function GetIdModuleMapping(rows: Result<seq<(string, int)>>): (r: seq<ModuleEntry<int>>)
    ensures rows.Err? ==> r == []
    ensures rows.Ok? ==> multiset(r) == multiset(Entries(rows.value))
  {
    if rows.Err? then [] else Sorting.SortBy(Entries(rows.value), IdRank)
  }

  /** The mapping is in ascending id order. */
  lemma MappingSorted(rows: Result<seq<(string, int)>>)
    ensures Sorting.SortedBy(GetIdModuleMapping(rows), IdRank)
  {
    if rows.Ok? {
      Sorting.SortBySorted(Entries(rows.value), IdRank);
    }
  }

  /** `{m["name"]: m["id"] for m in entries}`: a later entry overwrites an
      earlier one with the same name. */
  function NameToId<I>(entries: seq<ModuleEntry<I>>): map<string, I>
  {
    if |entries| == 0 then map[]
    else
      var last := entries[|entries| - 1];
      NameToId(entries[..|entries| - 1])[last.name := last.id]
  }

  /** A name is mapped exactly when some entry has it, and it is mapped to
      the id of the last entry with that name. */
  lemma {:induction false} NameToIdSpec<I>(entries: seq<ModuleEntry<I>>, n: string)
    ensures n in NameToId(entries) <==> exists i :: 0 <= i < |entries| && entries[i].name == n
    ensures n in NameToId(entries) ==>
              exists i :: 0 <= i < |entries| && entries[i].name == n && NameToId(entries)[n] == entries[i].id
                       && forall j :: i < j < |entries| ==> entries[j].name != n
  {
    if |entries| > 0 {
      var k := |entries| - 1;
      var front := entries[..k];
      NameToIdSpec(front, n);
      if entries[k].name != n {
        if n in NameToId(entries) {
          var i :| 0 <= i < |front| && front[i].name == n && NameToId(front)[n] == front[i].id
                   && forall j :: i < j < |front| ==> front[j].name != n;
          assert entries[i] == front[i];
          assert forall j :: i < j < k ==> entries[j] == front[j];
        }
        if exists i :: 0 <= i < |entries| && entries[i].name == n {
          var i :| 0 <= i < |entries| && entries[i].name == n;
          assert front[i] == entries[i];
        }
      }
    }
  }

  /** With entries sorted by id, the name maps to the largest id among the
      entries that carry it. */
  lemma LargestIdWins(entries: seq<ModuleEntry<int>>, n: string)
    requires Sorting.SortedBy(entries, IdRank)
    requires n in NameToId(entries)
    ensures forall j :: 0 <= j < |entries| && entries[j].name == n ==> entries[j].id <= NameToId(entries)[n]
  {
    NameToIdSpec(entries, n);
    var i :| 0 <= i < |entries| && entries[i].name == n && NameToId(entries)[n] == entries[i].id
             && forall j :: i < j < |entries| ==> entries[j].name != n;
    forall j | 0 <= j < |entries| && entries[j].name == n
      ensures entries[j].id <= NameToId(entries)[n]
    {
      if j < i {
        assert IdRank(entries[j]) <= IdRank(entries[i]);
      }
    }
  }

  /** `[mapping.get(name) for name in names if name in mapping]` */
  function SelectIds<I>(names: seq<string>, mapping: map<string, I>): (ids: seq<I>)
    ensures |ids| <= |names|
  {
    if |names| == 0 then []
    else (if names[0] in mapping then [mapping[names[0]]] else []) + SelectIds(names[1..], mapping)
  }

  /** `get_ids_by_module_names` */
  function GetIdsByModuleNames(names: seq<string>, rows: Result<seq<(string, int)>>): (ids: seq<int>)
    ensures |ids| <= |names|
    ensures rows.Err? ==> ids == []
  {
    var mapping := NameToId(GetIdModuleMapping(rows));
    SelectIdsKnown(names, mapping);
    SelectIds(names, mapping)
  }

  /** The selection follows the order of the names: resolving a
      concatenation resolves each part, so a repeated name gives a repeated
      id. */
  lemma {:induction false} SelectIdsConcat<I>(a: seq<string>, b: seq<string>, mapping: map<string, I>)
    ensures SelectIds(a + b, mapping) == SelectIds(a, mapping) + SelectIds(b, mapping)
  {
    if |a| > 0 {
      assert (a + b)[1..] == a[1..] + b;
      SelectIdsConcat(a[1..], b, mapping);
    } else {
      assert a + b == b;
    }
  }

  /** Unknown names are dropped; when every name is known, each name yields
      exactly its id, position by position. */
  lemma {:induction false} SelectIdsKnown<I>(names: seq<string>, mapping: map<string, I>)
    ensures (forall i :: 0 <= i < |names| ==> names[i] !in mapping) ==> SelectIds(names, mapping) == []
    ensures (forall i :: 0 <= i < |names| ==> names[i] in mapping) ==>
              |SelectIds(names, mapping)| == |names|
              && forall i :: 0 <= i < |names| ==> SelectIds(names, mapping)[i] == mapping[names[i]]
  {
    if |names| > 0 {
      SelectIdsKnown(names[1..], mapping);
      assert forall i :: 1 <= i < |names| ==> names[1..][i - 1] == names[i];
    }
  }

  /** Every resolved id belongs to a module with one of the requested names
      and is the largest id among the modules with that name. */
  lemma {:induction false} ResolvedIdsAreLargest(names: seq<string>, rows: seq<(string, int)>, k: nat)
    requires k < |GetIdsByModuleNames(names, Ok(rows))|
    ensures var id := GetIdsByModuleNames(names, Ok(rows))[k];
            exists i, r :: 0 <= i < |names| && 0 <= r < |rows| && rows[r] == (names[i], id)
                        && forall q :: 0 <= q < |rows| && rows[q].0 == names[i] ==> rows[q].1 <= id
  {
    var entries := GetIdModuleMapping(Ok(rows));
    var mapping := NameToId(entries);
    assert GetIdsByModuleNames(names, Ok(rows)) == SelectIds(names, mapping);
    var i := SelectedFrom(names, mapping, k);
    var n := names[i];
    var all := Entries(rows);
    MappingSorted(Ok(rows));
    SameElements(entries, all);
    LargestEntry(entries, all, n);
    var r :| 0 <= r < |all| && all[r] == ModuleEntry(mapping[n], n);
    assert rows[r] == (n, mapping[n]);
    forall q | 0 <= q < |rows| && rows[q].0 == n ensures rows[q].1 <= mapping[n] {
      assert all[q].name == n;
    }
  }

  /** Over entries sorted by id, the entry a name maps to is one of the
      entries, with the largest id among those carrying the name. */
  lemma LargestEntry(entries: seq<ModuleEntry<int>>, all: seq<ModuleEntry<int>>, n: string)
    requires Sorting.SortedBy(entries, IdRank)
    requires forall x :: x in entries <==> x in all
    requires n in NameToId(entries)
    ensures exists r :: 0 <= r < |all| && all[r] == ModuleEntry(NameToId(entries)[n], n)
    ensures forall q :: 0 <= q < |all| && all[q].name == n ==> all[q].id <= NameToId(entries)[n]
  {
    LargestIdWins(entries, n);
    NameToIdSpec(entries, n);
    var e :| 0 <= e < |entries| && entries[e].name == n && NameToId(entries)[n] == entries[e].id;
    assert entries[e] == ModuleEntry(NameToId(entries)[n], n);
    assert entries[e] in all;
    forall q | 0 <= q < |all| && all[q].name == n ensures all[q].id <= NameToId(entries)[n] {
      assert all[q] in entries;
      var j :| 0 <= j < |entries| && entries[j] == all[q];
    }
  }

  lemma SameElements<I>(a: seq<ModuleEntry<I>>, b: seq<ModuleEntry<I>>)
    requires multiset(a) == multiset(b)
    ensures forall x :: x in a <==> x in b
  {
    forall x ensures x in a <==> x in b {
      assert x in a <==> x in multiset(a);
      assert x in b <==> x in multiset(b);
    }
  }

  /** The position of the name that produced the `k`-th id. */
  lemma {:induction false} SelectedFrom<I>(names: seq<string>, mapping: map<string, I>, k: nat) returns (i: nat)
    requires k < |SelectIds(names, mapping)|
    ensures i < |names| && names[i] in mapping && SelectIds(names, mapping)[k] == mapping[names[i]]
  {
    if names[0] in mapping && k == 0 {
      i := 0;
    } else {
      var k' := if names[0] in mapping then k - 1 else k;
      var j := SelectedFrom(names[1..], mapping, k');
      i := j + 1;
    }
  }

  /** Every name present in the rows resolves, so each requested name
      yields exactly one id, position by position. */
  lemma KnownNamesResolve(names: seq<string>, rows: seq<(string, int)>)
    requires forall i :: 0 <= i < |names| ==> exists r :: 0 <= r < |rows| && rows[r].0 == names[i]
    ensures |GetIdsByModuleNames(names, Ok(rows))| == |names|
  {
    var entries := GetIdModuleMapping(Ok(rows));
    var mapping := NameToId(entries);
    var all := Entries(rows);
    SameElements(entries, all);
    forall i | 0 <= i < |names| ensures names[i] in mapping {
      var r :| 0 <= r < |rows| && rows[r].0 == names[i];
      assert all[r] in entries;
      var e :| 0 <= e < |entries| && entries[e] == all[r];
      NameToIdSpec(entries, names[i]);
    }
    SelectIdsKnown(names, mapping);
  }

  // ---------------------------------------------------------------------
  // The mapping as written

  /** `{"id": r[1], "name": r[0]}` for each row, where a row is a bare
      module name (the first column that `db.execute` keeps): the entry
      pairs the name's second character, as the id, with its first, as the
      name. A name shorter than two characters makes `r[1]` raise
      IndexError. */
  function CharEntries(rows: seq<string>): (r: Result<seq<ModuleEntry<string>>>)
    ensures r.Err? <==> exists i :: 0 <= i < |rows| && |rows[i]| < 2
    ensures r.Ok? ==> |r.value| == |rows|
    ensures r.Ok? ==> forall i :: 0 <= i < |rows| ==> r.value[i] == ModuleEntry([rows[i][1]], [rows[i][0]])
  {
    if exists i :: 0 <= i < |rows| && |rows[i]| < 2 then Err(IndexError)
    else Ok(seq(|rows|, i requires 0 <= i < |rows| => ModuleEntry([rows[i][1]], [rows[i][0]])))
  }

  /** Python orders one-character strings by code point. */
  function CharRank(m: ModuleEntry<string>): real {
    if |m.id| > 0 then (m.id[0] as int) as real else 0.0
  }

  /** `get_id_module_mapping` as written: the character entries sorted by
      id, `[]` when the query or an entry raises. */
  function GetIdModuleMappingAsWritten(rows: Result<seq<string>>): (r: seq<ModuleEntry<string>>)
    ensures rows.Err? || CharEntries(rows.value).Err? ==> r == []
    ensures rows.Ok? && CharEntries(rows.value).Ok? ==> multiset(r) == multiset(CharEntries(rows.value).value)
  {
    if rows.Err? then []
    else
      match CharEntries(rows.value)
      case Err(_) => []
      case Ok(entries) => Sorting.SortBy(entries, CharRank)
  }

  /** `get_ids_by_module_names` as written. */
  function GetIdsByModuleNamesAsWritten(names: seq<string>, rows: Result<seq<string>>): seq<string> {
    SelectIds(names, NameToId(GetIdModuleMappingAsWritten(rows)))
  }

  /** As written, every name and id in the mapping is a single character, so
      only one-character module names can resolve, and what they resolve to
      is a character rather than a module id. */
  lemma AsWrittenOnlyOneCharNamesResolve(names: seq<string>, rows: Result<seq<string>>)
    ensures var ids := GetIdsByModuleNamesAsWritten(names, rows);
            forall k :: 0 <= k < |ids| ==> |ids[k]| == 1
    ensures (forall i :: 0 <= i < |names| ==> |names[i]| != 1) ==> GetIdsByModuleNamesAsWritten(names, rows) == []
  {
    var entries := GetIdModuleMappingAsWritten(rows);
    var mapping := NameToId(entries);
    assert forall e :: e in entries ==> |e.id| == 1 && |e.name| == 1 by {
      if rows.Ok? && CharEntries(rows.value).Ok? {
        SameElements(entries, CharEntries(rows.value).value);
      }
    }
    forall n | n in mapping ensures |n| == 1 && |mapping[n]| == 1 {
      NameToIdSpec(entries, n);
      var i :| 0 <= i < |entries| && entries[i].name == n && mapping[n] == entries[i].id;
      assert entries[i] in entries;
    }
    var ids := SelectIds(names, mapping);
    forall k | 0 <= k < |ids| ensures |ids[k]| == 1 {
      var i := SelectedFrom(names, mapping, k);
    }
    if forall i :: 0 <= i < |names| ==> |names[i]| != 1 {
      SelectIdsKnown(names, mapping);
    }
  }

  /** The module "Login" among the modules "Login" and "Cart" resolves to
      nothing as written. */
  lemma LoginDoesNotResolve()
    ensures GetIdsByModuleNamesAsWritten(["Login"], Ok(["Login", "Cart"])) == []
  {
    AsWrittenOnlyOneCharNamesResolve(["Login"], Ok(["Login", "Cart"]));
  }

  /** With the intended `(name, id)` rows, "Login" resolves to its id. */
  lemma LoginResolves()
    ensures GetIdsByModuleNames(["Login"], Ok([("Login", 7), ("Cart", 3)])) == [7]
  {
    var names := ["Login"];
    var rows := [("Login", 7), ("Cart", 3)];
    assert rows[0].0 == names[0];
    KnownNamesResolve(names, rows);
    var ids := GetIdsByModuleNames(names, Ok(rows));
    assert |ids| == 1;
    ResolvedIdsAreLargest(names, rows, 0);
    var i, r :| 0 <= i < |names| && 0 <= r < |rows| && rows[r] == (names[i], ids[0]);
    assert |rows[1].0| == 4 && |names[i]| == 5;
    assert r == 0;
    assert ids == [7];
  }
}
