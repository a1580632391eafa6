/**
  Column resolution: from the project's column listing, find the column that
  stands for each of the four workflow names, or report one that is missing.
 */
module ColumnResolution {
  import opened Board

  /** Why column resolution failed. */
  datatype ColumnError =
    | ListingFailed(status: int)   // the column listing call itself failed
    | MissingColumn(name: string)  // "column <name> does not exist"

  /** Some listed column carries this name. */
  predicate Listed(columns: seq<Column>, name: string) {
    exists i :: 0 <= i < |columns| && columns[i].name == name
  }

  /** Every one of the four workflow names is listed. */
  predicate Complete(columns: seq<Column>) {
    forall name :: name in Required ==> Listed(columns, name)
  }

  /** The last listed column with this name, if any: a later listing of a name overwrites an earlier one. */
  function LastNamed(columns: seq<Column>, name: string): Option<Column> {
    if columns == [] then None
    else if columns[|columns| - 1].name == name then Some(columns[|columns| - 1])
    else LastNamed(columns[..|columns| - 1], name)
  }

  /** A name resolves exactly when it is listed, and then to a listed column of that name that no later column shares. */
  lemma {:induction false} LastNamedMeaning(columns: seq<Column>, name: string)
    ensures LastNamed(columns, name).None? <==> !Listed(columns, name)
    ensures LastNamed(columns, name).Some? ==>
              exists i :: 0 <= i < |columns| && columns[i] == LastNamed(columns, name).value && columns[i].name == name
                          && forall j :: i < j < |columns| ==> columns[j].name != name
  {
    if columns != [] && columns[|columns| - 1].name != name {
      var earlier := columns[..|columns| - 1];
      LastNamedMeaning(earlier, name);
      assert forall i :: 0 <= i < |earlier| ==> earlier[i] == columns[i];
      if Listed(columns, name) {
        var i :| 0 <= i < |columns| && columns[i].name == name;
        assert earlier[i].name == name;
      }
    }
  }

  /** The column table: each workflow name that is listed, bound to its last listed column. */
  function Table(columns: seq<Column>): map<string, Column> {
    map name | name in Required && LastNamed(columns, name).Some? :: LastNamed(columns, name).value
  }

  /**
    Resolve the four workflow columns from the answer to the column listing.
    The first loop overwrites a name's entry with each listed column that has
    it; the second scans the four names in no particular order and stops at the
    first that was never filled in.
   */
  method GetColumns(listing: Reply<seq<Column>>) returns (r: Result<map<string, Column>, ColumnError>)
    ensures listing.Failed? ==> r == Failure(ListingFailed(listing.status))
    ensures listing.Answer? ==> (r.Success? <==> Complete(listing.value))
    ensures r.Success? ==> listing.Answer? && r.value == Table(listing.value) && r.value.Keys == Required
    ensures listing.Answer? && r.Failure? ==>
              r.error.MissingColumn? && r.error.name in Required && !Listed(listing.value, r.error.name)
  {
    if listing.Failed? {
      return Failure(ListingFailed(listing.status));
    }
    var columns := listing.value;
    var found: map<string, Option<Column>> :=
      map[BACKLOG := None, IN_PROGRESS := None, IN_REVIEW := None, PENDING_RELEASE := None];
    for i := 0 to |columns|
      invariant Tracks(found, columns[..i])
    {
      TracksStep(found, columns, i);
      var name := columns[i].name;
      if name in found {
        found := found[name := Some(columns[i])];
      }
    }
    assert columns[..|columns|] == columns;
    var unchecked := found.Keys;
    while unchecked != {}
      invariant unchecked <= found.Keys
      invariant forall name :: name in found.Keys - unchecked ==> found[name].Some?
      decreases unchecked
    {
      var name :| name in unchecked;
      if found[name].None? {
        LastNamedMeaning(columns, name);
        return Failure(MissingColumn(name));
      }
      unchecked := unchecked - {name};
    }
    var table := map name | name in found.Keys :: found[name].value;
    TrackedTable(found, columns, table);
    r := Success(table);
  }

  /** The entry of each workflow name is the last column listed so far with that name. */
  ghost predicate Tracks(found: map<string, Option<Column>>, columns: seq<Column>) {
    found.Keys == Required && forall name :: name in Required ==> found[name] == LastNamed(columns, name)
  }

  /** Listing one more column overwrites only its own name's entry. */
  lemma TracksStep(found: map<string, Option<Column>>, columns: seq<Column>, i: int)
    requires 0 <= i < |columns| && Tracks(found, columns[..i])
    ensures var column := columns[i];
            Tracks(if column.name in found then found[column.name := Some(column)] else found, columns[..i + 1])
  {
    assert columns[..i + 1][..i] == columns[..i];
  }

  /** Once every entry is filled in, all four names are listed and the filled-in table is the column table. */
  lemma TrackedTable(found: map<string, Option<Column>>, columns: seq<Column>, table: map<string, Column>)
    requires Tracks(found, columns)
    requires forall name :: name in found ==> found[name].Some?
    requires table == map name | name in found.Keys :: found[name].value
    ensures Complete(columns) && table == Table(columns) && table.Keys == Required
  {
    forall name | name in Required ensures Listed(columns, name) {
      LastNamedMeaning(columns, name);
    }
    assert table.Keys == Table(columns).Keys;
    forall name | name in table ensures table[name] == Table(columns)[name] {
      assert found[name] == LastNamed(columns, name);
    }
  }

  /** The columns whose names are among the four workflow names, in listing order. */
  function Relevant(columns: seq<Column>): (r: seq<Column>)
    ensures |r| <= |columns|
    ensures forall k :: 0 <= k < |r| ==> r[k].name in Required
  {
    if columns == [] then []
    else
      var rest := Relevant(columns[..|columns| - 1]);
      var last := columns[|columns| - 1];
      if last.name in Required then rest + [last] else rest
  }

  /** Dropping columns with other names never changes which column a workflow name resolves to. */
  lemma {:induction false} LastNamedIgnoresOthers(columns: seq<Column>, name: string)
    requires name in Required
    ensures LastNamed(Relevant(columns), name) == LastNamed(columns, name)
  {
    if columns != [] {
      var earlier := columns[..|columns| - 1];
      var last := columns[|columns| - 1];
      LastNamedIgnoresOthers(earlier, name);
      if last.name in Required {
        assert (Relevant(earlier) + [last])[..|Relevant(earlier) + [last]| - 1] == Relevant(earlier);
      }
    }
  }

  /** Columns with other names affect neither whether resolution succeeds nor its table. */
  lemma OtherColumnsIgnored(columns: seq<Column>)
    ensures Table(Relevant(columns)) == Table(columns)
    ensures Complete(Relevant(columns)) <==> Complete(columns)
  {
    forall name | name in Required
      ensures LastNamed(Relevant(columns), name) == LastNamed(columns, name)
      ensures Listed(Relevant(columns), name) <==> Listed(columns, name)
    {
      LastNamedIgnoresOthers(columns, name);
      LastNamedMeaning(columns, name);
      LastNamedMeaning(Relevant(columns), name);
    }
  }

  /** A workflow column listed after every other column of the same name is the one the table keeps. */
  lemma LastListedWins(columns: seq<Column>, i: int)
    requires 0 <= i < |columns| && columns[i].name in Required
    requires forall j :: i < j < |columns| ==> columns[j].name != columns[i].name
    ensures columns[i].name in Table(columns) && Table(columns)[columns[i].name] == columns[i]
  {
    LastNamedMeaning(columns, columns[i].name);
  }

  /** Resolution succeeds exactly when the table has all four names, and then each maps to a listed column of that name. */
  lemma TableMeaning(columns: seq<Column>)
    ensures Table(columns).Keys <= Required
    ensures Complete(columns) <==> Table(columns).Keys == Required
    ensures forall name :: name in Table(columns) ==>
              Table(columns)[name].name == name && Table(columns)[name] in columns
  {
    forall name | name in Table(columns)
      ensures Table(columns)[name].name == name && Table(columns)[name] in columns
    {
      LastNamedMeaning(columns, name);
    }
    forall name | name in Required ensures LastNamed(columns, name).Some? <==> Listed(columns, name) {
      LastNamedMeaning(columns, name);
    }
  }
}
