/**
 * The SafeSql value: SQL text paired with the ordered list of values bound to
 * its `?` placeholders, together with the few operations on such pairs that
 * the builder and the operand nodes share (concatenation, binding one value,
 * joining fragments with a delimiter), and the escaping helpers whose rules
 * are not part of this model.
 */
module SafeSqlCore {

  /** A bound parameter value. The library accepts any Java object; the model never looks inside one. */
  type Value

  datatype Option<T> = None | Some(value: T)

  /** An immutable pair of SQL text and positional parameters. */
  datatype SafeSql = SafeSql(sql: string, parameters: seq<Value>)

  /** The delimiter of comma-separated lists: the values of `params`, operand lists and column lists. */
  const ListSeparator: string := ", "

  /** The fragment with no text and no parameters. */
  const Empty: SafeSql := SafeSql("", [])

  /** Raw SQL text that binds nothing (what the library calls a constant). */
  function Constant(s: string): SafeSql
  {
    SafeSql(s, [])
  }

  /** The list delimiter as a fragment: the text `", "`, binding nothing. */
  const ListDelimiter: SafeSql := Constant(ListSeparator)

  /** One placeholder bound to `v`. */
  function Bind(v: Value): SafeSql
  {
    SafeSql("?", [v])
  }

  /** The fragment whose text and parameters are those of `a` followed by those of `b`. */
  function Concat(a: SafeSql, b: SafeSql): SafeSql
  {
    SafeSql(a.sql + b.sql, a.parameters + b.parameters)
  }

  /** Number of `?` placeholder markers in a text. */
  function Markers(s: string): nat
  {
    if |s| == 0 then 0 else Markers(s[..|s| - 1]) + (if s[|s| - 1] == '?' then 1 else 0)
  }

  lemma {:induction false} MarkersAppend(a: string, b: string)
    ensures Markers(a + b) == Markers(a) + Markers(b)
    decreases |b|
  {
    if |b| == 0 {
      assert a + b == a;
    } else {
      assert (a + b)[..|a + b| - 1] == a + b[..|b| - 1];
      MarkersAppend(a, b[..|b| - 1]);
    }
  }

  lemma {:induction false} NoMarkers(s: string)
    requires '?' !in s
    ensures Markers(s) == 0
    decreases |s|
  {
    if |s| > 0 {
      assert forall c :: c in s[..|s| - 1] ==> c in s;
      NoMarkers(s[..|s| - 1]);
    }
  }

  /** The central invariant of a fragment: as many markers as parameters. */
  predicate Aligned(f: SafeSql)
  {
    Markers(f.sql) == |f.parameters|
  }

  lemma ConcatAligned(a: SafeSql, b: SafeSql)
    requires Aligned(a) && Aligned(b)
    ensures Aligned(Concat(a, b))
  {
    MarkersAppend(a.sql, b.sql);
  }

  /** Items separated by `delimiter`: nothing before the first, nothing after the last. */
  function Join(delimiter: SafeSql, items: seq<SafeSql>): SafeSql
  {
    if |items| == 0 then Empty
    else if |items| == 1 then items[0]
    else Concat(Concat(Join(delimiter, items[..|items| - 1]), delimiter), items[|items| - 1])
  }

  /** The parameters of every item, in item order (an independent reference for `Join`). */
  function AllParameters(items: seq<SafeSql>): seq<Value>
  {
    if |items| == 0 then [] else AllParameters(items[..|items| - 1]) + items[|items| - 1].parameters
  }

  lemma {:induction false} AllParametersAppend(xs: seq<SafeSql>, ys: seq<SafeSql>)
    ensures AllParameters(xs + ys) == AllParameters(xs) + AllParameters(ys)
    decreases |ys|
  {
    if |ys| == 0 {
      assert xs + ys == xs;
    } else {
      var n := |ys| - 1;
      var zs := xs + ys;
      assert zs[..|zs| - 1] == xs + ys[..n];
      assert zs[|zs| - 1] == ys[n];
      assert AllParameters(zs) == AllParameters(xs + ys[..n]) + ys[n].parameters;
      AllParametersAppend(xs, ys[..n]);
      assert AllParameters(ys) == AllParameters(ys[..n]) + ys[n].parameters;
    }
  }

  /** A delimiter that binds nothing makes the joined parameters exactly the items' parameters, in order. */
  lemma {:induction false} JoinParameters(delimiter: SafeSql, items: seq<SafeSql>)
    requires delimiter.parameters == []
    ensures Join(delimiter, items).parameters == AllParameters(items)
    decreases |items|
  {
    if |items| == 1 {
      assert AllParameters(items) == AllParameters(items[..0]) + items[0].parameters;
    } else if |items| > 1 {
      JoinParameters(delimiter, items[..|items| - 1]);
    }
  }

  /** Joining aligned items with an aligned delimiter gives an aligned fragment. */
  lemma {:induction false} JoinAligned(delimiter: SafeSql, items: seq<SafeSql>)
    requires Aligned(delimiter)
    requires forall i :: 0 <= i < |items| ==> Aligned(items[i])
    ensures Aligned(Join(delimiter, items))
    decreases |items|
  {
    if |items| > 1 {
      var front := items[..|items| - 1];
      JoinAligned(delimiter, front);
      ConcatAligned(Join(delimiter, front), delimiter);
      ConcatAligned(Concat(Join(delimiter, front), delimiter), items[|items| - 1]);
    }
  }

  /**
   * The joiner helper of the library: `prefix`, the items separated by
   * `delimiter`, then `suffix`. What it writes for an empty item list is not
   * part of this model, so it is only used where the answer does not matter:
   * with at least one item, or with empty prefix and suffix.
   */
  function Joined(delimiter: SafeSql, prefix: SafeSql, suffix: SafeSql, items: seq<SafeSql>): (r: SafeSql)
    requires items != [] || (prefix == Empty && suffix == Empty)
    ensures delimiter.parameters == [] && prefix.parameters == [] && suffix.parameters == [] ==>
      r.parameters == AllParameters(items)
  {
    var joined := Concat(Concat(prefix, Join(delimiter, items)), suffix);
    if delimiter.parameters == [] then JoinParameters(delimiter, items); joined else joined
  }

  /** Without prefix and suffix the joiner writes just the joined items. */
  lemma JoinedWithoutAffixes(delimiter: SafeSql, items: seq<SafeSql>)
    ensures Joined(delimiter, Empty, Empty, items) == Join(delimiter, items)
  {
    var j := Join(delimiter, items);
    assert "" + j.sql + "" == j.sql;
    assert [] + j.parameters + [] == j.parameters;
  }

  /** Identifier quoting of the target dialect; its rules are not part of this model. */
  const MayEscapeIdentifier: string -> string

  /** String-literal escaping of the target dialect; its rules are not part of this model. */
  const EscapeString: string -> string
}
