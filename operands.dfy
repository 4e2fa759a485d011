/**
 * Operand nodes of the query builder as one closed datatype, and the
 * fragment each renders into a builder. Rendering is pure: the builder's
 * `append(node)` concatenates the rendered fragment onto its state.
 */
module Operands {
  import opened SafeSqlCore
  import opened Builder

  /** The two operators an IN condition can carry. */
  datatype RelationalOperator = In | NotIn

  function Symbol(op: RelationalOperator): string
  {
    match op
    case In => "IN"
    case NotIn => "NOT IN"
  }

  /** The operator with the spaces around it, as written between the two sides. */
  function Keyword(op: RelationalOperator): string
  {
    " " + Symbol(op) + " "
  }

  lemma KeywordAligned(op: RelationalOperator)
    ensures Aligned(Constant(Keyword(op)))
  {
    assert '?' !in Symbol(op);
    NoMarkers(Keyword(op));
  }

  datatype Operand =
      /** A value bound as one parameter. */
    | Bound(value: Value)
      /** Any operand kind this model does not define (a column, a constant, a call, ...), given by the fragment it renders. */
    | Rendered(fragment: SafeSql)
      /** A parenthesised, possibly empty, list of operands: the right side of IN. */
    | Values(elements: seq<Operand>)
      /** Two or more operands, parenthesised. */
    | Tuple(operand1: Operand, operand2: Operand, others: seq<Operand>)
      /** `left IN (elements)` or `left NOT IN (elements)`. */
    | InCondition(left: Operand, operator: RelationalOperator, elements: seq<Operand>)

  /** `(`, the items joined with `", "`, `)`. An empty list gives `()`. */
  function Parenthesized(items: seq<SafeSql>): SafeSql
  {
    Concat(Concat(Constant("("), Joined(ListDelimiter, Empty, Empty, items)), Constant(")"))
  }

  function Render(op: Operand): SafeSql
    decreases op
  {
    match op
    case Bound(v) => Bind(v)
    case Rendered(f) => f
    case Values(elements) => Parenthesized(RenderAll(elements))
    case Tuple(operand1, operand2, others) =>
      Parenthesized([Render(operand1), Render(operand2)] + RenderAll(others))
    case InCondition(left, operator, elements) =>
      Concat(Concat(Render(left), Constant(Keyword(operator))), Parenthesized(RenderAll(elements)))
  }

  /** The rendering of each operand, in order. */
  function RenderAll(ops: seq<Operand>): (r: seq<SafeSql>)
    decreases ops
    ensures |r| == |ops|
    ensures forall i :: 0 <= i < |ops| ==> r[i] == Render(ops[i])
  {
    if |ops| == 0 then [] else RenderAll(ops[..|ops| - 1]) + [Render(ops[|ops| - 1])]
  }

  /** The values an operand binds, in the order they are bound: the reference for rendering's parameters. */
  function Bindings(op: Operand): seq<Value>
    decreases op
  {
    match op
    case Bound(v) => [v]
    case Rendered(f) => f.parameters
    case Values(elements) => BindingsAll(elements)
    case Tuple(operand1, operand2, others) => Bindings(operand1) + Bindings(operand2) + BindingsAll(others)
    case InCondition(left, _, elements) => Bindings(left) + BindingsAll(elements)
  }

  function BindingsAll(ops: seq<Operand>): seq<Value>
    decreases ops
  {
    if |ops| == 0 then [] else BindingsAll(ops[..|ops| - 1]) + Bindings(ops[|ops| - 1])
  }

  /** One bound-value operand per value. */
  function BoundAll(xs: seq<Value>): (ops: seq<Operand>)
    ensures |ops| == |xs|
    ensures forall i :: 0 <= i < |xs| ==> ops[i] == Bound(xs[i])
  {
    seq(|xs|, i requires 0 <= i < |xs| => Bound(xs[i]))
  }

  /** Bound-value operands bind exactly their values, in order, and render as the builder's own placeholders. */
  lemma {:induction false} BoundAllBindings(xs: seq<Value>)
    ensures BindingsAll(BoundAll(xs)) == xs
    ensures RenderAll(BoundAll(xs)) == Binds(xs)
    decreases |xs|
  {
    if |xs| > 0 {
      var n := |xs| - 1;
      assert BoundAll(xs)[..n] == BoundAll(xs[..n]);
      BoundAllBindings(xs[..n]);
      assert xs[..n] + [xs[n]] == xs;
    }
    assert RenderAll(BoundAll(xs)) == Binds(xs);
  }

  /** A parenthesised list of bound values renders `(?, ?, ..., ?)` and binds the values in order. */
  lemma ParenthesizedBoundValues(xs: seq<Value>)
    ensures Parenthesized(RenderAll(BoundAll(xs))) == SafeSql("(" + Placeholders(ListSeparator, |xs|) + ")", xs)
  {
    var items := RenderAll(BoundAll(xs));
    assert items == Binds(xs);
    ParamsWithTextDelimiter(ListSeparator, xs);
    var p := Placeholders(ListSeparator, |xs|);
    assert Join(ListDelimiter, items) == SafeSql(p, xs);
    JoinedWithoutAffixes(ListDelimiter, items);
    assert Parenthesized(items).sql == "(" + p + ")";
  }

  /** A parenthesised list is `(`, the items joined with `", "`, `)`, binding the joined items' parameters. */
  lemma ParenthesizedParts(items: seq<SafeSql>)
    ensures Parenthesized(items).sql == "(" + Join(ListDelimiter, items).sql + ")"
    ensures Parenthesized(items).parameters == Join(ListDelimiter, items).parameters
  {
    JoinedWithoutAffixes(ListDelimiter, items);
  }

  /** Writing `(`, the joined items and `)` one after the other writes the parenthesised list. */
  lemma EncloseParenthesized(text: string, params: seq<Value>, items: seq<SafeSql>)
    ensures text + "(" + Joined(ListDelimiter, Empty, Empty, items).sql + ")" == text + Parenthesized(items).sql
    ensures params + Joined(ListDelimiter, Empty, Empty, items).parameters == params + Parenthesized(items).parameters
  {
    ParenthesizedParts(items);
    JoinedWithoutAffixes(ListDelimiter, items);
    var j := Join(ListDelimiter, items).sql;
    assert text + "(" + j + ")" == text + ("(" + j + ")");
  }

  /** Every fragment an operand takes from outside this model is itself aligned. */
  predicate WellFormed(op: Operand)
    decreases op
  {
    match op
    case Bound(_) => true
    case Rendered(f) => Aligned(f)
    case Values(elements) => forall i :: 0 <= i < |elements| ==> WellFormed(elements[i])
    case Tuple(operand1, operand2, others) =>
      WellFormed(operand1) && WellFormed(operand2) && forall i :: 0 <= i < |others| ==> WellFormed(others[i])
    case InCondition(left, _, elements) =>
      WellFormed(left) && forall i :: 0 <= i < |elements| ==> WellFormed(elements[i])
  }

  /** A parenthesised list: `(` first, `)` last, and exactly the items' parameters in item order. */
  lemma ParenthesizedShape(items: seq<SafeSql>)
    ensures Parenthesized(items).sql[0] == '('
    ensures Parenthesized(items).sql[|Parenthesized(items).sql| - 1] == ')'
    ensures Parenthesized(items).parameters == AllParameters(items)
    ensures items == [] ==> Parenthesized(items) == Constant("()")
  {
    var p := Parenthesized(items);
    assert p.sql == "(" + Joined(ListDelimiter, Empty, Empty, items).sql + ")";
  }

  lemma ParenthesizedAligned(items: seq<SafeSql>)
    requires forall i :: 0 <= i < |items| ==> Aligned(items[i])
    ensures Aligned(Parenthesized(items))
  {
    JoinAligned(ListDelimiter, items);
    var joined := Joined(ListDelimiter, Empty, Empty, items);
    ConcatAligned(Empty, Join(ListDelimiter, items));
    ConcatAligned(Concat(Empty, Join(ListDelimiter, items)), Empty);
    ConcatAligned(Constant("("), joined);
    ConcatAligned(Concat(Constant("("), joined), Constant(")"));
  }

  lemma {:induction false} AllParametersPair(a: SafeSql, b: SafeSql)
    ensures AllParameters([a, b]) == a.parameters + b.parameters
  {
    assert [a, b][..1] == [a];
    assert [a][..0] == [];
    assert AllParameters([a]) == AllParameters([]) + a.parameters;
  }

  /** The parameters of a rendered operand are exactly its bindings, in order. */
  lemma {:induction false} RenderParameters(op: Operand)
    ensures Render(op).parameters == Bindings(op)
    decreases op, 1
  {
    match op
    case Bound(v) =>
    case Rendered(f) =>
    case Values(elements) =>
      ParenthesizedShape(RenderAll(elements));
      RenderAllParameters(elements);
    case Tuple(_, _, _) =>
      TupleParameters(op);
    case InCondition(left, _, elements) =>
      ParenthesizedShape(RenderAll(elements));
      RenderParameters(left);
      RenderAllParameters(elements);
  }

  lemma {:induction false} TupleParameters(op: Operand)
    requires op.Tuple?
    ensures Render(op).parameters == Bindings(op)
    decreases op, 0
  {
    var first := [Render(op.operand1), Render(op.operand2)];
    var rest := RenderAll(op.others);
    ParenthesizedShape(first + rest);
    AllParametersAppend(first, rest);
    AllParametersPair(Render(op.operand1), Render(op.operand2));
    RenderParameters(op.operand1);
    RenderParameters(op.operand2);
    RenderAllParameters(op.others);
  }

  lemma {:induction false} RenderAllParameters(ops: seq<Operand>)
    ensures AllParameters(RenderAll(ops)) == BindingsAll(ops)
    decreases ops, 0
  {
    if |ops| > 0 {
      var n := |ops| - 1;
      var r := RenderAll(ops);
      assert r[..n] == RenderAll(ops[..n]);
      RenderAllParameters(ops[..n]);
      RenderParameters(ops[n]);
    }
  }

  /** A well-formed operand renders as many markers as it binds values. */
  lemma {:induction false} RenderAligned(op: Operand)
    requires WellFormed(op)
    ensures Aligned(Render(op))
    decreases op, 1
  {
    match op
    case Bound(v) =>
      assert Markers("?") == Markers("") + 1;
    case Rendered(f) =>
    case Values(elements) =>
      RenderAllAligned(elements);
      ParenthesizedAligned(RenderAll(elements));
    case Tuple(operand1, operand2, others) =>
      RenderAligned(operand1);
      RenderAligned(operand2);
      RenderAllAligned(others);
      ParenthesizedAligned([Render(operand1), Render(operand2)] + RenderAll(others));
    case InCondition(left, operator, elements) =>
      RenderAligned(left);
      RenderAllAligned(elements);
      ParenthesizedAligned(RenderAll(elements));
      var keyword := Constant(Keyword(operator));
      KeywordAligned(operator);
      ConcatAligned(Render(left), keyword);
      ConcatAligned(Concat(Render(left), keyword), Parenthesized(RenderAll(elements)));
  }

  lemma {:induction false} RenderAllAligned(ops: seq<Operand>)
    requires forall i :: 0 <= i < |ops| ==> WellFormed(ops[i])
    ensures forall i :: 0 <= i < |ops| ==> Aligned(RenderAll(ops)[i])
    decreases ops, 0
  {
    forall i | 0 <= i < |ops|
      ensures Aligned(RenderAll(ops)[i])
    {
      RenderAligned(ops[i]);
    }
  }

  /** `append(node)`: the builder gains what the node renders. */
  method AppendOperand(builder: SafeSqlBuilder, op: Operand)
    modifies builder
    ensures builder.text == old(builder.text) + Render(op).sql
    ensures builder.params == old(builder.params) + Render(op).parameters
  {
    builder.AppendSafeSql(Render(op));
  }
}
