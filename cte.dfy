/**
 * Common table expressions: `name`, an optional parenthesised list of column
 * names, then ` AS (query)`. The query is any fragment; the name and the
 * column names are identifiers and never bind a value.
 */
module CommonTableExpressions {
  import opened SafeSqlCore
  import opened Builder

  datatype CommonTableExpression = CommonTableExpression(name: string, columnNames: seq<string>, query: SafeSql)

  /** The full constructor: the column names are kept in the order given. */
  function NewCommonTableExpressionWithColumns(name: string, columnNames: seq<string>, query: SafeSql): (c: CommonTableExpression)
    ensures c.name == name && c.columnNames == columnNames && c.query == query
  {
    CommonTableExpression(name, columnNames, query)
  }

  /** The short constructor delegates to the full one with no column names. */
  function NewCommonTableExpression(name: string, query: SafeSql): (c: CommonTableExpression)
    ensures c == NewCommonTableExpressionWithColumns(name, [], query)
    ensures c.columnNames == []
  {
    NewCommonTableExpressionWithColumns(name, [], query)
  }

  /** The full constructor over a caller's list: the names are copied as they are at construction. */
  method NewCommonTableExpressionFromArray(name: string, columnNames: array<string>, query: SafeSql)
    returns (c: CommonTableExpression)
    ensures c == NewCommonTableExpressionWithColumns(name, columnNames[..], query)
  {
    var copy := columnNames[..];
    c := NewCommonTableExpressionWithColumns(name, copy, query);
  }

  /** A caller that overwrites its list after construction does not change the expression. */
  method OverwriteColumnsAfterConstruction(name: string, columnNames: array<string>, query: SafeSql, i: nat, x: string)
    returns (c: CommonTableExpression)
    requires i < columnNames.Length
    modifies columnNames
    ensures columnNames[..] == old(columnNames[..])[i := x]
    ensures c == NewCommonTableExpressionWithColumns(name, old(columnNames[..]), query)
  {
    c := NewCommonTableExpressionFromArray(name, columnNames, query);
    columnNames[i] := x;
  }

  function GetName(c: CommonTableExpression): string
  {
    c.name
  }

  /** The name given to either constructor is the name returned. */
  lemma GetNameOfNew(name: string, columnNames: seq<string>, query: SafeSql)
    ensures GetName(NewCommonTableExpressionWithColumns(name, columnNames, query)) == name
    ensures GetName(NewCommonTableExpression(name, query)) == name
  {
  }

  /** One identifier fragment per column name, in order. */
  function ColumnIdentifiers(columnNames: seq<string>): (ids: seq<SafeSql>)
    ensures |ids| == |columnNames|
    ensures forall i :: 0 <= i < |columnNames| ==> ids[i] == Constant(MayEscapeIdentifier(columnNames[i]))
  {
    seq(|columnNames|, i requires 0 <= i < |columnNames| => Constant(MayEscapeIdentifier(columnNames[i])))
  }

  /** `(a, b, ...)` for a non-empty column list; nothing at all for an empty one. */
  function ColumnList(columnNames: seq<string>): SafeSql
  {
    if columnNames == [] then Empty
    else Joined(ListDelimiter, Constant("("), Constant(")"), ColumnIdentifiers(columnNames))
  }

  function RenderCte(c: CommonTableExpression): SafeSql
  {
    Concat(Concat(Concat(Constant(MayEscapeIdentifier(c.name)), ColumnList(c.columnNames)), Constant(" AS (")),
           Concat(c.query, Constant(")")))
  }

  /** The escaped column names separated by `", "`, written out as plain text. */
  function EscapedNames(columnNames: seq<string>): string
    decreases |columnNames|
  {
    if |columnNames| == 0 then ""
    else if |columnNames| == 1 then MayEscapeIdentifier(columnNames[0])
    else EscapedNames(columnNames[..|columnNames| - 1]) + ListSeparator + MayEscapeIdentifier(columnNames[|columnNames| - 1])
  }

  /** Joining the identifier fragments writes the escaped names separated by `", "`. */
  lemma {:induction false} JoinColumnIdentifiers(columnNames: seq<string>)
    ensures Join(ListDelimiter, ColumnIdentifiers(columnNames)).sql == EscapedNames(columnNames)
    decreases |columnNames|
  {
    if |columnNames| > 1 {
      var n := |columnNames| - 1;
      assert ColumnIdentifiers(columnNames)[..n] == ColumnIdentifiers(columnNames[..n]);
      JoinColumnIdentifiers(columnNames[..n]);
    }
  }

  /** The column list is nothing for no column names, and otherwise `(` the escaped names separated by `", "` `)`, binding nothing. */
  lemma ColumnListText(columnNames: seq<string>)
    ensures ColumnList(columnNames) == if columnNames == [] then Empty else Constant("(" + EscapedNames(columnNames) + ")")
  {
    if columnNames != [] {
      JoinColumnIdentifiers(columnNames);
      ColumnListBindsNothing(columnNames);
    }
  }

  /** Column names only ever produce text: a column list binds nothing. */
  lemma ColumnListBindsNothing(columnNames: seq<string>)
    ensures ColumnList(columnNames).parameters == []
  {
    if columnNames != [] {
      var ids := ColumnIdentifiers(columnNames);
      AllParametersNone(ids);
    }
  }

  lemma {:induction false} AllParametersNone(items: seq<SafeSql>)
    requires forall i :: 0 <= i < |items| ==> items[i].parameters == []
    ensures AllParameters(items) == []
    decreases |items|
  {
    if |items| > 0 {
      AllParametersNone(items[..|items| - 1]);
    }
  }

  /** Without column names: `name AS (query)`, binding exactly the query's values. */
  lemma RenderWithoutColumns(name: string, query: SafeSql)
    ensures RenderCte(NewCommonTableExpression(name, query))
         == SafeSql(MayEscapeIdentifier(name) + " AS (" + query.sql + ")", query.parameters)
  {
    var e := MayEscapeIdentifier(name);
    assert e + "" + " AS (" + (query.sql + ")") == e + " AS (" + query.sql + ")";
    assert [] + [] + [] + (query.parameters + []) == query.parameters;
  }

  /** With column names: `name(c1, c2, ...) AS (query)`, the column names separated by `", "`, binding exactly the query's values. */
  lemma RenderWithColumns(name: string, columnNames: seq<string>, query: SafeSql)
    requires columnNames != []
    ensures RenderCte(NewCommonTableExpressionWithColumns(name, columnNames, query)).sql
         == MayEscapeIdentifier(name) + "(" + Join(ListDelimiter, ColumnIdentifiers(columnNames)).sql + ")"
            + " AS (" + query.sql + ")"
    ensures RenderCte(NewCommonTableExpressionWithColumns(name, columnNames, query)).parameters == query.parameters
  {
    var e := MayEscapeIdentifier(name);
    var j := Join(ListDelimiter, ColumnIdentifiers(columnNames)).sql;
    assert ColumnList(columnNames).sql == "(" + j + ")";
    assert e + ("(" + j + ")") + " AS (" + (query.sql + ")") == e + "(" + j + ")" + " AS (" + query.sql + ")";
    ColumnListBindsNothing(columnNames);
  }

  /** Two columns, spelled out: `name(a, b) AS (query)`. */
  lemma RenderTwoColumns(name: string, a: string, b: string, query: SafeSql)
    ensures RenderCte(NewCommonTableExpressionWithColumns(name, [a, b], query)).sql
         == MayEscapeIdentifier(name) + "(" + MayEscapeIdentifier(a) + ", " + MayEscapeIdentifier(b) + ")"
            + " AS (" + query.sql + ")"
  {
    var ids := ColumnIdentifiers([a, b]);
    assert ids[..1] == [ids[0]];
    assert Join(ListDelimiter, ids).sql == MayEscapeIdentifier(a) + ", " + MayEscapeIdentifier(b);
    RenderWithColumns(name, [a, b], query);
  }

  /** An aligned query stays aligned once named, provided the escaped name and column names hold no `?`. */
  lemma RenderAlignedCte(c: CommonTableExpression)
    requires Aligned(c.query)
    requires '?' !in MayEscapeIdentifier(c.name)
    requires forall i :: 0 <= i < |c.columnNames| ==> '?' !in MayEscapeIdentifier(c.columnNames[i])
    ensures Aligned(RenderCte(c))
  {
    var ids := ColumnIdentifiers(c.columnNames);
    forall i | 0 <= i < |ids|
      ensures Aligned(ids[i])
    {
      NoMarkers(MayEscapeIdentifier(c.columnNames[i]));
    }
    NoMarkers(MayEscapeIdentifier(c.name));
    NoMarkers(" AS (");
    NoMarkers(")");
    var list := ColumnList(c.columnNames);
    if c.columnNames != [] {
      NoMarkers(ListSeparator);
      NoMarkers("(");
      JoinAligned(ListDelimiter, ids);
      ConcatAligned(Constant("("), Join(ListDelimiter, ids));
      ConcatAligned(Concat(Constant("("), Join(ListDelimiter, ids)), Constant(")"));
    }
    assert Aligned(list);
    var head := Concat(Constant(MayEscapeIdentifier(c.name)), list);
    ConcatAligned(Constant(MayEscapeIdentifier(c.name)), list);
    ConcatAligned(head, Constant(" AS ("));
    ConcatAligned(c.query, Constant(")"));
    ConcatAligned(Concat(head, Constant(" AS (")), Concat(c.query, Constant(")")));
  }

  /** Writing the name, the column list, ` AS (`, the query and `)` one after the other writes the expression. */
  lemma AppendCteSteps(text: string, params: seq<Value>, c: CommonTableExpression)
    ensures text + MayEscapeIdentifier(c.name) + ColumnList(c.columnNames).sql + " AS (" + c.query.sql + ")"
         == text + RenderCte(c).sql
    ensures params + ColumnList(c.columnNames).parameters + c.query.parameters == params + RenderCte(c).parameters
  {
    NamedQuerySteps(text, params, MayEscapeIdentifier(c.name), ColumnList(c.columnNames), c.query);
  }

  /** The concatenation `RenderCte` builds, for any name text, column list and query. */
  lemma NamedQuerySteps(text: string, params: seq<Value>, e: string, l: SafeSql, q: SafeSql)
    ensures text + e + l.sql + " AS (" + q.sql + ")"
         == text + Concat(Concat(Concat(Constant(e), l), Constant(" AS (")), Concat(q, Constant(")"))).sql
    ensures params + l.parameters + q.parameters
         == params + Concat(Concat(Concat(Constant(e), l), Constant(" AS (")), Concat(q, Constant(")"))).parameters
  {
    assert text + e + l.sql + " AS (" + q.sql + ")" == text + (e + l.sql + " AS (" + (q.sql + ")"));
    assert params + l.parameters + q.parameters == params + ([] + l.parameters + [] + (q.parameters + []));
  }

  /** `appendTo`: the name, the column list when there is one, ` AS (`, the query, `)`. */
  method AppendCteTo(c: CommonTableExpression, builder: SafeSqlBuilder)
    modifies builder
    ensures builder.text == old(builder.text) + RenderCte(c).sql
    ensures builder.params == old(builder.params) + RenderCte(c).parameters
  {
    AppendCteSteps(builder.text, builder.params, c);
    ghost var list := ColumnList(c.columnNames);
    builder.Identifier(c.name);
    if c.columnNames != [] {
      builder.JoinedSqlizables(ListDelimiter, Constant("("), Constant(")"), ColumnIdentifiers(c.columnNames));
    } else {
      assert builder.text + list.sql == builder.text;
      assert builder.params + list.parameters == builder.params;
    }
    builder.Append(" AS (");
    builder.AppendSafeSql(c.query);
    builder.Append(")");
  }
}
