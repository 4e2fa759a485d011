# SafeSql builder — a Dafny model

SafeSql is a Java library that builds SQL text and its list of bound values
side by side. Every value goes in as a `?` placeholder plus one entry in the
parameter list, never as text. This project models the library's core:

- the **SafeSql value**, a pair of SQL text and positional parameters, with
  concatenation, binding and the joiner (`safesql.dfy`, module `SafeSqlCore`);
- the **builder** `AbstractSafeSqlBuilder`, a class whose two buffers (`text`,
  `params`) every operation extends (`builder.dfy`, module `Builder`). It covers
  binding one or several values, raw text, numbers, identifiers, string and
  PostgreSQL bytea literals, the joiner, snapshots, and the checkpoint
  operations `getLength` / `setLength` / `append(other, after)`;
- the **operand nodes** of the query-builder module as one closed datatype,
  with the fragment each renders (`operands.dfy`, module `Operands`);
- **IN / NOT IN conditions** and their `Values` list (`in_condition.dfy`),
  **tuples** (`tuple.dfy`) and **common table expressions** (`cte.dfy`).

The invariant the library exists for is that a fragment has as many
placeholders as bound values (`SafeSqlCore.Aligned`). It is proved for
concatenation, joining and binding several values (given a delimiter that is
itself aligned), for the rendering of every operand whose foreign fragments
(`Operands.Operand.Rendered`) are aligned (`Operands.WellFormed`), and for
common table expressions whose query is aligned and whose escaped name and
column names contain no `?`. Rendering's parameters are proved equal to an
independent reference (`Operands.Bindings`), so values come out in order.
Rolling back to a checkpoint is proved to undo exactly what was appended
since. The splice from a checkpoint, as the source writes it, is proved to
drop or reject parameters (see Findings); the corrected splice is proved to
transfer exactly what was appended after the checkpoint. The bytea encoder is proved to round-trip through a
decoder. Builder methods are specified by the exact new contents of both
buffers, in terms of these functions.

## Model

| member | source | states |
|---|---|---|
| SafeSqlCore.MarkersAppend | safesql/src/main/java/org/dhatim/safesql/AbstractSafeSqlBuilder.java:118-123 | The placeholder count of concatenated text is the sum of the two counts, which is what makes `append(SafeSql)` keep text and parameters in step |
| SafeSqlCore.NoMarkers | safesql/src/main/java/org/dhatim/safesql/AbstractSafeSqlBuilder.java:131-135 | Raw text with no `?` adds no placeholder |
| SafeSqlCore.ConcatAligned | safesql/src/main/java/org/dhatim/safesql/AbstractSafeSqlBuilder.java:118-123 | Appending an aligned fragment to an aligned one gives an aligned fragment |
| SafeSqlCore.AllParametersAppend | safesql/src/main/java/org/dhatim/safesql/AbstractSafeSqlBuilder.java:260-266 | Collecting the items' parameters distributes over splitting the item list |
| SafeSqlCore.JoinParameters | safesql/src/main/java/org/dhatim/safesql/AbstractSafeSqlBuilder.java:260-266 | With a delimiter that binds nothing, the joined parameters are the items' parameters in item order |
| SafeSqlCore.JoinAligned | safesql/src/main/java/org/dhatim/safesql/AbstractSafeSqlBuilder.java:260-266 | Joining aligned items with an aligned delimiter is aligned |
| SafeSqlCore.Joined | safesql/src/main/java/org/dhatim/safesql/AbstractSafeSqlBuilder.java:260-266 | With delimiter, prefix and suffix binding nothing, the joiner's parameters are exactly the items' parameters in order |
| SafeSqlCore.JoinedWithoutAffixes | safesql/src/main/java/org/dhatim/safesql/AbstractSafeSqlBuilder.java:255-258 | The joiner with empty prefix and suffix writes just the items separated by the delimiter |
| Builder.BindsParameters | safesql/src/main/java/org/dhatim/safesql/AbstractSafeSqlBuilder.java:94-104 | The one-value fragments the binding loop writes are each aligned and, taken together, bind exactly the values in their order |
| Builder.ParamsFragmentSnoc | safesql/src/main/java/org/dhatim/safesql/AbstractSafeSqlBuilder.java:94-104 | One more value adds the delimiter, unless it is the first value, then its placeholder and the value |
| Builder.ParamsFragmentStep | safesql/src/main/java/org/dhatim/safesql/AbstractSafeSqlBuilder.java:94-104 | One loop step of the binding loop, stated on the first i and first i + 1 values |
| Builder.ParamsFragmentSmallCases | safesql/src/main/java/org/dhatim/safesql/AbstractSafeSqlBuilder.java:67-80 | No values write nothing, and one value writes exactly what `param` writes, so the special case for one value agrees with the loop |
| Builder.ParamsWithTextDelimiter | safesql/src/main/java/org/dhatim/safesql/AbstractSafeSqlBuilder.java:94-104 | With a text delimiter, binding `xs` writes the placeholder list `?, ?, ...` and binds exactly `xs` in order |
| Builder.PlaceholdersShape | safesql/src/main/java/org/dhatim/safesql/AbstractSafeSqlBuilder.java:94-104 | The placeholder list starts and ends with `?`, has length n + (n - 1) times the delimiter length, and holds n markers when the delimiter holds none |
| Builder.ParamsFragmentAligned | safesql/src/main/java/org/dhatim/safesql/AbstractSafeSqlBuilder.java:106-116 | Binding values with an aligned delimiter gives an aligned fragment |
| Builder.LengthOf | safesql/src/main/java/org/dhatim/safesql/AbstractSafeSqlBuilder.java:538-540 | The static `getLength(SafeSql)`: the position at the end of a fragment, its text length and parameter count (used by RollbackUndoesAppends and SinceIsDelta) |
| Builder.Truncate | safesql/src/main/java/org/dhatim/safesql/AbstractSafeSqlBuilder.java:524-530 | The state `setLength` leaves: the text cut or NUL-padded to the position, the parameters cut only when longer (its properties are RollbackKeepsPrefix and RollbackUndoesAppends) |
| Builder.RollbackToCurrentIsNoOp | safesql/src/main/java/org/dhatim/safesql/AbstractSafeSqlBuilder.java:520-530 | Rolling back to the current length changes nothing |
| Builder.RollbackUndoesAppends | safesql/src/main/java/org/dhatim/safesql/AbstractSafeSqlBuilder.java:520-530 | Rolling back to a checkpoint removes exactly what was appended since, from text and parameters alike |
| Builder.RollbackKeepsPrefix | safesql/src/main/java/org/dhatim/safesql/AbstractSafeSqlBuilder.java:524-530 | After a rollback the text has exactly the requested length, NUL-padded when longer than before; the parameters are a prefix of the old ones and are cut only when there were more |
| Builder.SinceIsDelta | safesql/src/main/java/org/dhatim/safesql/AbstractSafeSqlBuilder.java:532-536 | The corrected splice from a checkpoint transfers exactly what the other builder gained since that checkpoint |
| Builder.SpliceAsWrittenDropsParameters | safesql/src/main/java/org/dhatim/safesql/AbstractSafeSqlBuilder.java:532-536 | As written, a checkpoint after one value followed by two bound values splices `?, ?` with only one value, which is not aligned, while the corrected splice gives both |
| Builder.SpliceAsWritten | safesql/src/main/java/org/dhatim/safesql/AbstractSafeSqlBuilder.java:532-536 | The splice as the source writes it: the text from the checkpoint, then the parameters from the checkpoint to `size - checkpoint`, or an exception where Java's range checks throw (exhibited by SpliceAsWrittenDropsParameters and SpliceAsWrittenThrows) |
| Builder.SpliceAsWrittenThrows | safesql/src/main/java/org/dhatim/safesql/AbstractSafeSqlBuilder.java:532-536 | As written, a checkpoint after two values followed by one bound value makes the sub-list bounds throw |
| Builder.DigitsShape | safesql/src/main/java/org/dhatim/safesql/AbstractSafeSqlBuilder.java:143-153 | The decimal digits of a natural number are at least one character, all of them digits |
| Builder.DigitsRoundTrip | safesql/src/main/java/org/dhatim/safesql/AbstractSafeSqlBuilder.java:143-153 | The decimal digits of a natural number read back as the number |
| Builder.DecimalParses | safesql/src/main/java/org/dhatim/safesql/AbstractSafeSqlBuilder.java:143-153 | The text written for an integer, with a minus sign when negative, reads back as that integer |
| Builder.DecimalHasNoMarkers | safesql/src/main/java/org/dhatim/safesql/AbstractSafeSqlBuilder.java:143-153 | The text written for an integer holds no placeholder |
| Builder.DecimalRoundTrip | safesql/src/main/java/org/dhatim/safesql/AbstractSafeSqlBuilder.java:143-153 | The text written for an `int` or `long` reads back as that integer and holds no placeholder |
| Builder.HighNibble | safesql/src/main/java/org/dhatim/safesql/AbstractSafeSqlBuilder.java:310 | `(b >> 4) & 0xF` on a signed byte is a valid index into the 16 hex digits |
| Builder.LowNibble | safesql/src/main/java/org/dhatim/safesql/AbstractSafeSqlBuilder.java:311 | `b & 0xF` on a signed byte is a valid index into the 16 hex digits |
| Builder.NibblesRecombine | safesql/src/main/java/org/dhatim/safesql/AbstractSafeSqlBuilder.java:310-311 | The two nibbles written for a signed byte recombine to that byte |
| Builder.HexCodeValue | safesql/src/main/java/org/dhatim/safesql/AbstractSafeSqlBuilder.java:24 | Helper for the bytea round trip: each hex digit of the table reads back as its index |
| Builder.HexDigitsSnoc | safesql/src/main/java/org/dhatim/safesql/AbstractSafeSqlBuilder.java:309-312 | Encoding one more byte appends its high digit, then its low digit |
| Builder.HexDigitsShape | safesql/src/main/java/org/dhatim/safesql/AbstractSafeSqlBuilder.java:309-312 | Two characters per byte, none of them a placeholder |
| Builder.DecodeLastPair | safesql/src/main/java/org/dhatim/safesql/AbstractSafeSqlBuilder.java:309-312 | Decoding undoes the two digits written for the last byte |
| Builder.HexDigitsRoundTrip | safesql/src/main/java/org/dhatim/safesql/AbstractSafeSqlBuilder.java:309-312 | The hex digits decode back to the bytes |
| Builder.ByteaLiteralRoundTrip | safesql/src/main/java/org/dhatim/safesql/AbstractSafeSqlBuilder.java:306-315 | The bytea literal is `'\x`, 2n hex digits and `'`, holds no placeholder and decodes back to the bytes |
| Builder.SafeSqlBuilder.constructor | safesql/src/main/java/org/dhatim/safesql/AbstractSafeSqlBuilder.java:31-35 | A new builder starts with exactly the text and parameters the caller's buffers hold |
| Builder.SafeSqlBuilder.Param | safesql/src/main/java/org/dhatim/safesql/AbstractSafeSqlBuilder.java:37-65 | Every `param` overload appends one `?` to the text and the value to the end of the parameters |
| Builder.SafeSqlBuilder.Append | safesql/src/main/java/org/dhatim/safesql/AbstractSafeSqlBuilder.java:131-135 | Raw text is appended and the parameters are unchanged |
| Builder.SafeSqlBuilder.AppendChar | safesql/src/main/java/org/dhatim/safesql/AbstractSafeSqlBuilder.java:137-141 | One character is appended and the parameters are unchanged |
| Builder.SafeSqlBuilder.AppendInt | safesql/src/main/java/org/dhatim/safesql/AbstractSafeSqlBuilder.java:143-147 | The decimal text of a 32-bit integer is appended and nothing is bound |
| Builder.SafeSqlBuilder.AppendLong | safesql/src/main/java/org/dhatim/safesql/AbstractSafeSqlBuilder.java:149-153 | The decimal text of a 64-bit integer is appended and nothing is bound |
| Builder.SafeSqlBuilder.AppendSafeSql | safesql/src/main/java/org/dhatim/safesql/AbstractSafeSqlBuilder.java:118-123 | The fragment's text is appended, then all its parameters in order |
| Builder.SafeSqlBuilder.AppendBuilder | safesql/src/main/java/org/dhatim/safesql/AbstractSafeSqlBuilder.java:155-158 | Another builder's text and parameters, as they were on entry, are appended; a builder appended to itself doubles |
| Builder.SafeSqlBuilder.AppendTo | safesql/src/main/java/org/dhatim/safesql/AbstractSafeSqlBuilder.java:502-509 | The target builder gains this builder's text and parameters |
| Builder.SafeSqlBuilder.Params | safesql/src/main/java/org/dhatim/safesql/AbstractSafeSqlBuilder.java:67-80 | The values are bound with `", "` between consecutive placeholders and none before or after; no values write nothing |
| Builder.SafeSqlBuilder.ParamsIterator | safesql/src/main/java/org/dhatim/safesql/AbstractSafeSqlBuilder.java:94-104 | The values are bound in order with the text delimiter between consecutive ones only |
| Builder.SafeSqlBuilder.ParamsIteratorSafeSql | safesql/src/main/java/org/dhatim/safesql/AbstractSafeSqlBuilder.java:106-116 | The same with a fragment as delimiter; the delimiter's own parameters are bound at each separation |
| Builder.SafeSqlBuilder.ParamsIterable | safesql/src/main/java/org/dhatim/safesql/AbstractSafeSqlBuilder.java:82-92 | `params(Iterable)` and `params(Stream)` bind the values with `", "` between them |
| Builder.SafeSqlBuilder.ParamsWithAffixes | safesql/src/main/java/org/dhatim/safesql/AbstractSafeSqlBuilder.java:447-453 | The prefix, the placeholder list and the suffix are written even for no values, and exactly the values are bound |
| Builder.SafeSqlBuilder.Literal | safesql/src/main/java/org/dhatim/safesql/AbstractSafeSqlBuilder.java:166-170 | The escaped string literal is appended and nothing is bound |
| Builder.SafeSqlBuilder.LiteralBytes | safesql/src/main/java/org/dhatim/safesql/AbstractSafeSqlBuilder.java:306-315 | The bytea literal of the bytes is appended and nothing is bound |
| Builder.SafeSqlBuilder.Identifier | safesql/src/main/java/org/dhatim/safesql/AbstractSafeSqlBuilder.java:317-321 | The escaped identifier is appended and nothing is bound |
| Builder.SafeSqlBuilder.QualifiedIdentifier | safesql/src/main/java/org/dhatim/safesql/AbstractSafeSqlBuilder.java:323-331 | `container.identifier`, both escaped, or the plain identifier when there is no container |
| Builder.SafeSqlBuilder.JoinedSqlizables | safesql/src/main/java/org/dhatim/safesql/AbstractSafeSqlBuilder.java:260-266 | The joiner's fragment is appended to both buffers |
| Builder.SafeSqlBuilder.ToSafeSql | safesql/src/main/java/org/dhatim/safesql/AbstractSafeSqlBuilder.java:497-500 | The snapshot is the builder's current text and parameters |
| Builder.SafeSqlBuilder.IsEmpty | safesql/src/main/java/org/dhatim/safesql/AbstractSafeSqlBuilder.java:511-513 | True exactly when there is no text and no parameter |
| Builder.SafeSqlBuilder.GetLength | safesql/src/main/java/org/dhatim/safesql/AbstractSafeSqlBuilder.java:520-522 | The checkpoint is the current text length and parameter count |
| Builder.SafeSqlBuilder.SetLength | safesql/src/main/java/org/dhatim/safesql/AbstractSafeSqlBuilder.java:524-530 | The new state is the old one rolled back to the position (see RollbackUndoesAppends and RollbackKeepsPrefix) |
| Builder.SafeSqlBuilder.AppendSinceAsWritten | safesql/src/main/java/org/dhatim/safesql/AbstractSafeSqlBuilder.java:532-536 | The splice as written: the text from the checkpoint, then the parameters between the checkpoint and `size - checkpoint`, or an exception |
| Builder.SafeSqlBuilder.AppendSince | safesql/src/main/java/org/dhatim/safesql/AbstractSafeSqlBuilder.java:532-536 | The corrected splice appends everything the other builder holds beyond the checkpoint |
| Operands.KeywordAligned | safesql-builder/src/main/java/org/dhatim/safesql/builder/InCondition.java:8-10 | The operator keyword with its surrounding spaces binds nothing and holds no placeholder |
| Operands.Render | safesql-builder/src/main/java/org/dhatim/safesql/builder/InCondition.java:27-30 | What each node's `appendTo` writes: a bound value is `?`, a list and a tuple are parenthesised and joined with `", "`, a condition is its left side, the keyword and its list (its properties are RenderParameters and RenderAligned) |
| Operands.RenderAll | safesql-builder/src/main/java/org/dhatim/safesql/builder/InCondition.java:27-30 | One rendered fragment per operand, each exactly that operand's rendering, in order |
| Operands.BoundAllBindings | safesql-builder/src/test/java/org/dhatim/safesql/builder/QueryBuilder2Test.java:39-48 | The bound-value operands the tests build with `of(...)` and `new Value(...)` bind exactly those values in order, and each renders as the builder's own one-value placeholder |
| Operands.ParenthesizedBoundValues | safesql-builder/src/main/java/org/dhatim/safesql/builder/InCondition.java:27-30 | A list of bound values renders `(?, ?, ..., ?)` and binds exactly those values in order |
| Operands.ParenthesizedShape | safesql-builder/src/main/java/org/dhatim/safesql/builder/InCondition.java:27-30 | A parenthesised list begins with `(`, ends with `)`, binds exactly its items' parameters in order, and is `()` when empty |
| Operands.ParenthesizedParts | safesql-builder/src/main/java/org/dhatim/safesql/builder/InCondition.java:27-30 | A parenthesised list is `(`, the items separated by `", "`, `)`, binding the items' parameters |
| Operands.EncloseParenthesized | safesql-builder/src/main/java/org/dhatim/safesql/builder/Tuple.java:18-22 | Writing `(`, the joiner's output and `)` in three steps writes exactly the parenthesised list |
| Operands.ParenthesizedAligned | safesql-builder/src/main/java/org/dhatim/safesql/builder/Tuple.java:18-22 | A parenthesised list of aligned items is aligned |
| Operands.AllParametersPair | safesql-builder/src/main/java/org/dhatim/safesql/builder/Tuple.java:11-15 | Helper for the tuple's first two operands: the parameters of two fragments are the first's then the second's |
| Operands.RenderParameters | safesql-builder/src/main/java/org/dhatim/safesql/builder/InCondition.java:27-30 | Every operand's rendering binds exactly its reference bindings, in order |
| Operands.TupleParameters | safesql-builder/src/main/java/org/dhatim/safesql/builder/Tuple.java:18-22 | A tuple binds its first operand's values, then its second's, then the others', in order |
| Operands.RenderAllParameters | safesql-builder/src/main/java/org/dhatim/safesql/builder/Tuple.java:18-22 | A list of operands binds exactly the concatenation of their bindings, in order |
| Operands.RenderAligned | safesql-builder/src/main/java/org/dhatim/safesql/builder/InCondition.java:27-30 | A well-formed operand renders as many placeholders as it binds values |
| Operands.RenderAllAligned | safesql-builder/src/main/java/org/dhatim/safesql/builder/Tuple.java:18-22 | Every rendering of a list of well-formed operands is aligned |
| Operands.AppendOperand | safesql/src/main/java/org/dhatim/safesql/AbstractSafeSqlBuilder.java:125-129 | `append(node)` appends the node's rendering to both buffers |
| InConditions.NewInCondition | safesql-builder/src/main/java/org/dhatim/safesql/builder/InCondition.java:8-10 | NOT IN exactly when `notIn` holds; the left side and elements are kept |
| InConditions.Negate | safesql-builder/src/main/java/org/dhatim/safesql/builder/InCondition.java:12-15 | Negation keeps the left side and the elements and flips the operator |
| InConditions.NegateInvolution | safesql-builder/src/main/java/org/dhatim/safesql/builder/InCondition.java:12-15 | Negating twice gives back the condition |
| InConditions.NegateRendering | safesql-builder/src/main/java/org/dhatim/safesql/builder/InCondition.java:12-15 | A condition renders as left side, keyword, value list; negation changes only the keyword and binds the same values in the same order |
| InConditions.ValuesShape | safesql-builder/src/main/java/org/dhatim/safesql/builder/InCondition.java:27-30 | A value list is parenthesised even when empty and binds its elements' values in order |
| InConditions.InConditionOfBoundValuesParts | safesql-builder/src/main/java/org/dhatim/safesql/builder/InCondition.java:8-10 | A condition over bound values renders as the left side, the keyword and the placeholder list |
| InConditions.InConditionOfBoundValues | safesql-builder/src/main/java/org/dhatim/safesql/builder/InCondition.java:8-10 | A condition over bound values renders `left IN (?, ..., ?)` or `left NOT IN (...)` and binds the left side's values, then the listed ones |
| InConditions.Regroup | safesql-builder/src/main/java/org/dhatim/safesql/builder/InCondition.java:8-10 | Helper for the condition layout lemmas: the left side, the keyword and a parenthesised list concatenate to one fragment with their texts and parameters in that order |
| InConditions.InListExample | safesql-builder/src/test/java/org/dhatim/safesql/builder/QueryBuilder2Test.java:36-42 | `name IN (?, ?, ?)` with the three values in order |
| InConditions.NotInListExample | safesql-builder/src/test/java/org/dhatim/safesql/builder/QueryBuilder2Test.java:45-51 | `name NOT IN (?, ?, ?)` with the three values in order |
| InConditions.NegateInListExample | safesql-builder/src/test/java/org/dhatim/safesql/builder/QueryBuilder2Test.java:45-51 | Negating the IN condition of the test gives its NOT IN condition |
| InConditions.NewValues | safesql-builder/src/main/java/org/dhatim/safesql/builder/InCondition.java:23-25 | The list holds the array's elements as they are at construction |
| InConditions.NewInConditionFromArray | safesql-builder/src/main/java/org/dhatim/safesql/builder/InCondition.java:8-10 | The condition over an array holds the array's contents at construction |
| InConditions.OverwriteAfterConstruction | safesql-builder/src/main/java/org/dhatim/safesql/builder/InCondition.java:23-25 | Writing into the caller's array after construction does not change the condition |
| InConditions.AppendValuesTo | safesql-builder/src/main/java/org/dhatim/safesql/builder/InCondition.java:27-30 | `(`, the elements joined with `", "`, `)` is exactly the list's rendering |
| Tuples.TupleOperands | safesql-builder/src/main/java/org/dhatim/safesql/builder/Tuple.java:11-15 | At least two operands: the first, the second, then the others in order |
| Tuples.NewTuple | safesql-builder/src/main/java/org/dhatim/safesql/builder/Tuple.java:11-15 | The constructor's operands, in argument order |
| Tuples.TupleRendersOperands | safesql-builder/src/main/java/org/dhatim/safesql/builder/Tuple.java:18-22 | A tuple renders as the parenthesised list of its operands |
| Tuples.TupleShape | safesql-builder/src/main/java/org/dhatim/safesql/builder/Tuple.java:18-22 | `(` first, `)` last, and the operands' values in operand order |
| Tuples.TupleOperandsOfBoundValues | safesql-builder/src/main/java/org/dhatim/safesql/builder/Tuple.java:11-15 | A tuple of bound values has those values as operands, in order |
| Tuples.TupleOfBoundValues | safesql-builder/src/main/java/org/dhatim/safesql/builder/Tuple.java:18-22 | A tuple of bound values renders `(?, ?, ...)` with one placeholder per operand and binds them in order |
| Tuples.AppendTupleTo | safesql-builder/src/main/java/org/dhatim/safesql/builder/Tuple.java:18-22 | `(`, the operands joined with `", "`, `)` is exactly the tuple's rendering |
| CommonTableExpressions.NewCommonTableExpressionWithColumns | safesql-builder/src/main/java/org/dhatim/safesql/builder/CommonTableExpression.java:19-23 | The expression keeps the name, the column names in order and the query |
| CommonTableExpressions.NewCommonTableExpression | safesql-builder/src/main/java/org/dhatim/safesql/builder/CommonTableExpression.java:15-17 | The short constructor is the full one with no column names |
| CommonTableExpressions.NewCommonTableExpressionFromArray | safesql-builder/src/main/java/org/dhatim/safesql/builder/CommonTableExpression.java:19-23 | The column names are copied as they are at construction |
| CommonTableExpressions.OverwriteColumnsAfterConstruction | safesql-builder/src/main/java/org/dhatim/safesql/builder/CommonTableExpression.java:22 | Writing into the caller's list after construction does not change the expression |
| CommonTableExpressions.GetName | safesql-builder/src/main/java/org/dhatim/safesql/builder/CommonTableExpression.java:25-27 | `getName` returns the stored name (see GetNameOfNew) |
| CommonTableExpressions.GetNameOfNew | safesql-builder/src/main/java/org/dhatim/safesql/builder/CommonTableExpression.java:25-27 | `getName` returns the name given to either constructor |
| CommonTableExpressions.JoinColumnIdentifiers | safesql-builder/src/main/java/org/dhatim/safesql/builder/CommonTableExpression.java:33 | Joining the column identifiers writes the escaped column names, in order, separated by `", "` (against the plain-text reference `EscapedNames`) |
| CommonTableExpressions.ColumnListText | safesql-builder/src/main/java/org/dhatim/safesql/builder/CommonTableExpression.java:32-34 | No column names write nothing; otherwise the list is `(`, the escaped names separated by `", "`, then `)`, and binds no value |
| CommonTableExpressions.ColumnListBindsNothing | safesql-builder/src/main/java/org/dhatim/safesql/builder/CommonTableExpression.java:32-34 | The column list binds no value |
| CommonTableExpressions.AllParametersNone | safesql-builder/src/main/java/org/dhatim/safesql/builder/CommonTableExpression.java:33 | Helper for the column list: items that bind nothing join into a fragment that binds nothing |
| CommonTableExpressions.RenderWithoutColumns | safesql-builder/src/main/java/org/dhatim/safesql/builder/CommonTableExpression.java:29-38 | Without column names: `name AS (query)`, binding exactly the query's values |
| CommonTableExpressions.RenderWithColumns | safesql-builder/src/main/java/org/dhatim/safesql/builder/CommonTableExpression.java:29-38 | With column names: `name(c1, c2, ...) AS (query)`, binding exactly the query's values |
| CommonTableExpressions.RenderTwoColumns | safesql-builder/src/main/java/org/dhatim/safesql/builder/CommonTableExpression.java:29-38 | Two columns spelled out: `name(a, b) AS (query)` |
| CommonTableExpressions.RenderAlignedCte | safesql-builder/src/main/java/org/dhatim/safesql/builder/CommonTableExpression.java:29-38 | An aligned query stays aligned once named, when the escaped names hold no `?` |
| CommonTableExpressions.AppendCteSteps | safesql-builder/src/main/java/org/dhatim/safesql/builder/CommonTableExpression.java:29-38 | Writing the name, the column list, ` AS (`, the query and `)` in steps writes exactly the expression's rendering |
| CommonTableExpressions.RenderCte | safesql-builder/src/main/java/org/dhatim/safesql/builder/CommonTableExpression.java:29-38 | What `appendTo` writes: the escaped name, the column list when there is one, ` AS (`, the query, `)` (its properties are RenderWithoutColumns, RenderWithColumns and RenderAlignedCte) |
| CommonTableExpressions.AppendCteTo | safesql-builder/src/main/java/org/dhatim/safesql/builder/CommonTableExpression.java:29-38 | The name, the column list when there is one, ` AS (`, the query and `)` are exactly the expression's rendering |

## Left out

- Values are opaque: the model never looks inside a bound Java object, so `param(int)`, `param(long)`, `param(double)`, `param(boolean)` and `param(Object)` are one operation. Floating point is not modelled.
- `SafeSqlUtils.escapeString` and `SafeSqlUtils.mayEscapeIdentifier` are uninterpreted functions (`EscapeString`, `MayEscapeIdentifier`). `SafeSqlUtils` is not part of this model, so no property depends on their quoting rules.
- `format(sql, args)` and `SafeSqlUtils.formatTo`: the format-string parser is not part of this model.
- The `joined(String ...)`, `joinedSafeSqls(...)` and stream overloads of `joinedSqlizables` are not modelled separately. They reach the same joiner as `JoinedSqlizables`; in the `String` forms the delimiter, prefix and suffix become constants. What `SafeSqlJoiner.add` does with each item is not part of this model. For a non-empty item list the joiner is assumed to write the prefix, then every item in order with the delimiter between each two and none skipped, then the suffix; every property of value lists, tuples and column lists rests on that layout.
- SafeSqlCore.Joined: requires a non-empty item list unless the prefix and suffix are empty, because what `SafeSqlJoiner` writes for an empty list with a prefix or suffix is not known here; `SafeSqlJoiner` is not part of this model.
- Builder.SafeSqlBuilder.JoinedSqlizables: requires a non-empty item list unless the prefix and suffix are empty. `SafeSqlJoiner` is not part of this model, so what it writes for an empty list with a prefix or suffix is not stated.
- The deprecated aliases (`appendStringLiteral`, `appendFormat`, `appendJoined`, `appendByteLiteral`, `appendIdentifier`) only forward to the operations above. The deprecated `params` overloads with a delimiter are `ParamsIterator` / `ParamsIteratorSafeSql`. Their `String` prefix and suffix forms are `ParamsWithAffixes`; their `SafeSql` prefix and suffix forms are not modelled as one member and amount to `AppendSafeSql` of the prefix, `ParamsIteratorSafeSql`, then `AppendSafeSql` of the suffix.
- Streams and iterators are modelled as the finite sequence of values they yield. Laziness and single use are not modelled.
- `appendConstant` (used by `Values.appendTo`) is taken to append raw text like `append(String)`, because its body is not part of this model.
- `AbstractCondition`, which renders a condition as its left side, the operator between spaces and its right side, is not part of this model. That layout is taken from the expected SQL of the query-builder tests.
- `QueryBuilder2`, joins, aliases, `SqlQuery` and the other operand kinds are not modelled. An operand outside this model is represented by the fragment it renders (`Operands.Operand.Rendered`).
- Builder.SafeSqlBuilder.Param and the other builder methods: their contracts give the exact new buffers, but do not restate the alignment invariant. Alignment is proved on the fragments they append (`ConcatAligned`, `ParamsFragmentAligned`, `RenderAligned`, `RenderAlignedCte`).
- The builder's self type (`myself`, fluent returns) and the `instanceof` dispatch in `appendTo` are not modelled. `AppendTo` takes the builder branch, which gives the same contents as the snapshot branch.
- Builder.SafeSqlBuilder.constructor: the builder takes the caller's buffers' contents but does not share them; the aliasing by which the caller's `StringBuilder` and `List` see every later append is not modelled.
- Text is a sequence of Unicode scalar values, while a Java `StringBuilder` counts UTF-16 code units. For text outside the Basic Multilingual Plane, `GetLength`, `SetLength` and the splice's text offset count differently from the source, and `AppendChar` of a lone surrogate cannot be expressed.
- `Identifier` is not part of this model. Column names of a common table expression are taken to render as `mayEscapeIdentifier(name)`, like `identifier(String)`.
- Java `int` overflow in positions cannot happen in the model: positions are unbounded naturals.

## Findings

| source | as written | input that shows it | evidently intended | confidence | as-written member | corrected member |
|---|---|---|---|---|---|---|
| safesql/src/main/java/org/dhatim/safesql/AbstractSafeSqlBuilder.java:534-535 | the parameters spliced from `other` are `subList(after, size - after)`: the checkpoint's parameter index is used as the sub-list's end offset | checkpoint after one bound value (`?` / [a]), then `?, ?` with [b, c] bound: the splice writes `?, ?` but binds only [b]; with a checkpoint after two values and one more bound, the sub-list bounds are reversed and it throws after the text was already appended | `subList(after, size)`: every parameter bound since the checkpoint | high, not executed | Builder.SpliceAsWrittenDropsParameters | Builder.SinceIsDelta |
