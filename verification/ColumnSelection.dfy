/**
 querySpec of backend/ent/account_query.go (lines 1036-1058): the columns a query selects.
 */
module ColumnSelection {
  import opened Accounts

  // account.Columns: every column of the table, the ID first.
  function TableColumns(): (columns: seq<Column>)
    ensures |columns| > 0 && columns[0] == ID && ID !in columns[1..]
    ensures forall c: Column :: c in columns <==> !c.OtherColumn?
  {
    [ID] + TableFieldsToPriority() + TableFieldsFromRate()
  }

  function TableFieldsToPriority(): (columns: seq<Column>)
    ensures forall c: Column :: c in columns <==>
      || c.CreatedAt? || c.UpdatedAt? || c.DeletedAt? || c.Name? || c.Notes? || c.Platform? || c.Type?
      || c.Credentials? || c.Extra? || c.ProxyID? || c.ProxyFallbackOriginID? || c.Concurrency? || c.LoadFactor?
      || c.Priority?
  {
    [CreatedAt, UpdatedAt, DeletedAt, Name, Notes, Platform, Type, Credentials, Extra, ProxyID,
     ProxyFallbackOriginID, Concurrency, LoadFactor, Priority]
  }

  function TableFieldsFromRate(): (columns: seq<Column>)
    ensures forall c: Column :: c in columns <==>
      || c.RateMultiplier? || c.Status? || c.ErrorMessage? || c.LastUsedAt? || c.ExpiresAt?
      || c.AutoPauseOnExpired? || c.Schedulable? || c.RateLimitedAt? || c.RateLimitResetAt? || c.OverloadUntil?
      || c.TempUnschedulableUntil? || c.TempUnschedulableReason? || c.SessionWindowStart? || c.SessionWindowEnd?
      || c.SessionWindowStatus? || c.ParentAccountID? || c.QuotaDimension?
  {
    [RateMultiplier, Status, ErrorMessage, LastUsedAt, ExpiresAt, AutoPauseOnExpired, Schedulable,
     RateLimitedAt, RateLimitResetAt, OverloadUntil, TempUnschedulableUntil, TempUnschedulableReason,
     SessionWindowStart, SessionWindowEnd, SessionWindowStatus, ParentAccountID, QuotaDimension]
  }

  // QueryContext.AppendFieldOnce and NodeSpec.AddColumnOnce.
  function AppendOnce(columns: seq<Column>, column: Column): seq<Column> {
    if column in columns then columns else columns + [column]
  }

  // The ID, then the first n fields that are not the ID.
  function FieldList(fields: seq<Column>, n: nat): seq<Column>
    requires n <= |fields|
  {
    if n == 0 then [ID]
    else if fields[n - 1] == ID then FieldList(fields, n - 1)
    else FieldList(fields, n - 1) + [fields[n - 1]]
  }

  function ColumnList(fields: seq<Column>, withProxy: bool, withParent: bool): seq<Column> {
    if fields == [] then TableColumns()
    else
      var selected := FieldList(fields, |fields|);
      var withKey := if withProxy then AppendOnce(selected, ProxyID) else selected;
      if withParent then AppendOnce(withKey, ParentAccountID) else withKey
  }

  lemma {:induction false} FieldListExact(fields: seq<Column>, n: nat)
    requires n <= |fields|
    ensures var columns := FieldList(fields, n); |columns| > 0 && columns[0] == ID && ID !in columns[1..]
    ensures forall c :: c in FieldList(fields, n) <==> c == ID || c in fields[..n]
  {
    if n != 0 {
      FieldListExact(fields, n - 1);
      assert fields[..n] == fields[..n - 1] + [fields[n - 1]];
    }
  }

  /**
   querySpec's column list. Whatever was selected, the ID comes first and once, nothing selected is dropped, and
   the foreign keys the requested edges need are there.
   */
  method SpecColumns(fields: seq<Column>, withProxy: bool, withParent: bool) returns (columns: seq<Column>)
    ensures columns == ColumnList(fields, withProxy, withParent)
    ensures |columns| > 0 && columns[0] == ID && ID !in columns[1..]
    ensures fields == [] ==> forall c: Column :: c in columns <==> !c.OtherColumn?
    ensures fields != [] ==> forall c :: c in columns <==>
      c == ID || c in fields || (withProxy && c == ProxyID) || (withParent && c == ParentAccountID)
  {
    if |fields| == 0 {
      return TableColumns();
    }
    columns := [ID];
    for i := 0 to |fields|
      invariant columns == FieldList(fields, i)
    {
      if fields[i] != ID {
        columns := columns + [fields[i]];
      }
    }
    FieldListExact(fields, |fields|);
    assert fields[..|fields|] == fields;
    if withProxy {
      columns := AppendOnce(columns, ProxyID);
    }
    if withParent {
      columns := AppendOnce(columns, ParentAccountID);
    }
  }

  // The keys the loaders read are always there.
  lemma KeysAreSelected(fields: seq<Column>, withProxy: bool, withParent: bool)
    ensures ID in ColumnList(fields, withProxy, withParent)
    ensures withProxy ==> ProxyID in ColumnList(fields, withProxy, withParent)
    ensures withParent ==> ParentAccountID in ColumnList(fields, withProxy, withParent)
    ensures ParentAccountID in fields ==> ParentAccountID in ColumnList(fields, withProxy, withParent)
  {
    FieldListExact(fields, |fields|);
    assert fields[..|fields|] == fields;
  }
  lemma {:induction false} FieldListCounts(fields: seq<Column>, n: nat)
    requires n <= |fields|
    ensures multiset(FieldList(fields, n)) == multiset(fields[..n])[ID := 1]
  {
    if n != 0 {
      FieldListCounts(fields, n - 1);
      assert fields[..n] == fields[..n - 1] + [fields[n - 1]];
    }
  }

  function Once(column: Column, wanted: bool): multiset<Column> { if wanted then multiset{column} else multiset{} }

  // A selected column other than the ID is asked for as often as it was selected, so a document selected twice is
  // decoded twice; a key that was added stands once.
  lemma SelectionKeepsCounts(fields: seq<Column>, withProxy: bool, withParent: bool)
    requires fields != []
    ensures multiset(ColumnList(fields, withProxy, withParent)) ==
      multiset(fields)[ID := 1] + Once(ProxyID, withProxy && ProxyID !in fields)
      + Once(ParentAccountID, withParent && ParentAccountID !in fields)
  {
    FieldListCounts(fields, |fields|);
    FieldListExact(fields, |fields|);
    assert fields[..|fields|] == fields;
  }
}
