/**
 * IN and NOT IN conditions, and the parenthesised `Values` list on their
 * right-hand side.
 */
module InConditions {
  import opened SafeSqlCore
  import opened Builder
  import opened Operands

  /** The constructor: NOT IN when `notIn` holds, IN otherwise; the elements become a `Values` list. */
  function NewInCondition(left: Operand, notIn: bool, elements: seq<Operand>): (c: Operand)
    ensures c.InCondition? && c.left == left && c.elements == elements
    ensures c.operator == NotIn <==> notIn
  {
    InCondition(left, if notIn then NotIn else In, elements)
  }

  /** A new condition with the other operator, the same left side and the same elements. */
  function Negate(c: Operand): (r: Operand)
    requires c.InCondition?
    ensures r.InCondition? && r.left == c.left && r.elements == c.elements
    ensures r.operator != c.operator
  {
    NewInCondition(c.left, c.operator == In, c.elements)
  }

  /** Negating twice gives back the condition. */
  lemma NegateInvolution(c: Operand)
    requires c.InCondition?
    ensures Negate(Negate(c)) == c
  {
  }

  /** Negation changes only the keyword: the left side, the list and every bound value stay, in order. */
  lemma NegateRendering(c: Operand)
    requires c.InCondition?
    ensures Render(c) == Concat(Concat(Render(c.left), Constant(Keyword(c.operator))), Render(Values(c.elements)))
    ensures Render(Negate(c)) == Concat(Concat(Render(c.left), Constant(Keyword(Negate(c).operator))), Render(Values(c.elements)))
    ensures Render(Negate(c)).parameters == Render(c).parameters
  {
  }

  /** A `Values` list: `(` first and `)` last even when empty, binding its elements' values in element order. */
  lemma ValuesShape(elements: seq<Operand>)
    ensures Render(Values(elements)).sql[0] == '('
    ensures Render(Values(elements)).sql[|Render(Values(elements)).sql| - 1] == ')'
    ensures Render(Values(elements)).parameters == BindingsAll(elements)
    ensures elements == [] ==> Render(Values(elements)) == Constant("()")
  {
    ParenthesizedShape(RenderAll(elements));
    RenderAllParameters(elements);
  }

  /** A condition over bound values: the left side, the keyword, then the parenthesised placeholder list. */
  lemma InConditionOfBoundValuesParts(left: SafeSql, notIn: bool, xs: seq<Value>)
    ensures Render(NewInCondition(Rendered(left), notIn, BoundAll(xs)))
         == Concat(Concat(left, Constant(Keyword(if notIn then NotIn else In))), SafeSql("(" + Placeholders(ListSeparator, |xs|) + ")", xs))
  {
    ParenthesizedBoundValues(xs);
  }

  /** A condition over bound values renders `left IN (?, ..., ?)` and binds the left side's values, then the list's. */
  lemma InConditionOfBoundValues(left: SafeSql, notIn: bool, xs: seq<Value>)
    ensures Render(NewInCondition(Rendered(left), notIn, BoundAll(xs)))
         == SafeSql(left.sql + Keyword(if notIn then NotIn else In) + "(" + Placeholders(ListSeparator, |xs|) + ")", left.parameters + xs)
  {
    InConditionOfBoundValuesParts(left, notIn, xs);
    Regroup(left, Keyword(if notIn then NotIn else In), Placeholders(ListSeparator, |xs|), xs);
  }

  lemma Regroup(left: SafeSql, keyword: string, p: string, xs: seq<Value>)
    ensures Concat(Concat(left, Constant(keyword)), SafeSql("(" + p + ")", xs))
         == SafeSql(left.sql + keyword + "(" + p + ")", left.parameters + xs)
  {
    assert left.sql + keyword + ("(" + p + ")") == left.sql + keyword + "(" + p + ")";
    assert left.parameters + [] + xs == left.parameters + xs;
  }

  lemma ThreePlaceholders()
    ensures Placeholders(ListSeparator, 3) == "?, ?, ?"
  {
  }

  lemma InListText()
    ensures "name" + Keyword(In) + "(" + Placeholders(ListSeparator, 3) + ")" == "name IN (?, ?, ?)"
  {
    ThreePlaceholders();
  }

  lemma NotInListText()
    ensures "name" + Keyword(NotIn) + "(" + Placeholders(ListSeparator, 3) + ")" == "name NOT IN (?, ?, ?)"
  {
    ThreePlaceholders();
  }

  /** `name IN (?, ?, ?)` binding three values in order. */
  lemma InListExample(a: Value, b: Value, c: Value)
    ensures Render(NewInCondition(Rendered(Constant("name")), false, BoundAll([a, b, c])))
         == SafeSql("name IN (?, ?, ?)", [a, b, c])
  {
    InConditionOfBoundValues(Constant("name"), false, [a, b, c]);
    InListText();
  }

  /** `name NOT IN (?, ?, ?)` binding the same values in the same order. */
  lemma NotInListExample(a: Value, b: Value, c: Value)
    ensures Render(NewInCondition(Rendered(Constant("name")), true, BoundAll([a, b, c])))
         == SafeSql("name NOT IN (?, ?, ?)", [a, b, c])
  {
    InConditionOfBoundValues(Constant("name"), true, [a, b, c]);
    NotInListText();
  }

  /** Negating the IN condition of the example gives its NOT IN condition. */
  lemma NegateInListExample(a: Value, b: Value, c: Value)
    ensures Negate(NewInCondition(Rendered(Constant("name")), false, BoundAll([a, b, c])))
         == NewInCondition(Rendered(Constant("name")), true, BoundAll([a, b, c]))
  {
  }

  /** The `Values` constructor copies the caller's array. */
  method NewValues(elements: array<Operand>) returns (v: Operand)
    ensures v == Values(elements[..])
  {
    v := Values(elements[..]);
  }

  /** The condition constructor over a caller's array: the elements are taken as they are at construction. */
  method NewInConditionFromArray(left: Operand, notIn: bool, elements: array<Operand>) returns (c: Operand)
    ensures c == NewInCondition(left, notIn, elements[..])
  {
    var values := NewValues(elements);
    c := NewInCondition(left, notIn, values.elements);
  }

  /** A caller that overwrites its array after construction does not change the condition. */
  method OverwriteAfterConstruction(left: Operand, notIn: bool, elements: array<Operand>, i: nat, x: Operand)
    returns (c: Operand)
    requires i < elements.Length
    modifies elements
    ensures elements[..] == old(elements[..])[i := x]
    ensures c == NewInCondition(left, notIn, old(elements[..]))
  {
    c := NewInConditionFromArray(left, notIn, elements);
    elements[i] := x;
  }

  /** `Values.appendTo`: `(`, the elements joined with `", "`, `)`. */
  method AppendValuesTo(v: Operand, builder: SafeSqlBuilder)
    requires v.Values?
    modifies builder
    ensures builder.text == old(builder.text) + Render(v).sql
    ensures builder.params == old(builder.params) + Render(v).parameters
  {
    assert Render(v) == Parenthesized(RenderAll(v.elements));
    var items := RenderAll(v.elements);
    EncloseParenthesized(builder.text, builder.params, items);
    builder.Append("(");
    builder.JoinedSqlizables(ListDelimiter, Empty, Empty, items);
    builder.Append(")");
  }
}
