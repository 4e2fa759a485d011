/** Tuples: two or more operands, rendered as a parenthesised list. */
module Tuples {
  import opened SafeSqlCore
  import opened Builder
  import opened Operands

  /** The operands of a tuple in order: the first, the second, then the others. */
  function TupleOperands(t: Operand): (ops: seq<Operand>)
    requires t.Tuple?
    ensures |ops| >= 2
    ensures ops[0] == t.operand1 && ops[1] == t.operand2 && ops[2..] == t.others
  {
    [t.operand1, t.operand2] + t.others
  }

  /** The constructor takes two operands and any number of further ones, so a tuple never has fewer than two. */
  function NewTuple(operand1: Operand, operand2: Operand, others: seq<Operand>): (t: Operand)
    ensures t.Tuple?
    ensures TupleOperands(t) == [operand1, operand2] + others
  {
    Tuple(operand1, operand2, others)
  }

  /** A tuple renders exactly as the parenthesised list of its operands. */
  lemma TupleRendersOperands(t: Operand)
    requires t.Tuple?
    ensures Render(t) == Parenthesized(RenderAll(TupleOperands(t)))
  {
    var items := [Render(t.operand1), Render(t.operand2)] + RenderAll(t.others);
    assert Render(t) == Parenthesized(items);
    assert RenderAll(TupleOperands(t)) == items;
  }

  /** `(` first, `)` last, and the operands' values in operand order, nothing bound by the tuple itself. */
  lemma TupleShape(t: Operand)
    requires t.Tuple?
    ensures Render(t).sql[0] == '('
    ensures Render(t).sql[|Render(t).sql| - 1] == ')'
    ensures Render(t).parameters == Bindings(t.operand1) + Bindings(t.operand2) + BindingsAll(t.others)
  {
    TupleRendersOperands(t);
    ParenthesizedShape(RenderAll(TupleOperands(t)));
    RenderParameters(t);
  }

  /** The operands of a tuple of bound values are the bound values, in order. */
  lemma TupleOperandsOfBoundValues(x: Value, y: Value, rest: seq<Value>)
    ensures TupleOperands(NewTuple(Bound(x), Bound(y), BoundAll(rest))) == BoundAll([x, y] + rest)
  {
    var ops := TupleOperands(NewTuple(Bound(x), Bound(y), BoundAll(rest)));
    var xs := [x, y] + rest;
    forall i | 0 <= i < |xs|
      ensures ops[i] == BoundAll(xs)[i]
    {
      if i >= 2 {
        assert ops[i] == BoundAll(rest)[i - 2];
      }
    }
  }

  /** A tuple of bound values renders `(?, ?, ...)` with one marker per operand, binding them in order. */
  lemma TupleOfBoundValues(x: Value, y: Value, rest: seq<Value>)
    ensures Render(NewTuple(Bound(x), Bound(y), BoundAll(rest)))
         == SafeSql("(" + Placeholders(ListSeparator, 2 + |rest|) + ")", [x, y] + rest)
  {
    var t := NewTuple(Bound(x), Bound(y), BoundAll(rest));
    TupleRendersOperands(t);
    TupleOperandsOfBoundValues(x, y, rest);
    ParenthesizedBoundValues([x, y] + rest);
  }

  /** `Tuple.appendTo`: `(`, the operands joined with `", "`, `)`. */
  method AppendTupleTo(t: Operand, builder: SafeSqlBuilder)
    requires t.Tuple?
    modifies builder
    ensures builder.text == old(builder.text) + Render(t).sql
    ensures builder.params == old(builder.params) + Render(t).parameters
  {
    TupleRendersOperands(t);
    var items := RenderAll(TupleOperands(t));
    EncloseParenthesized(builder.text, builder.params, items);
    builder.Append("(");
    builder.JoinedSqlizables(ListDelimiter, Empty, Empty, items);
    builder.Append(")");
  }
}
