/** The attribute-equality clause the viewer interpolates into query `where` strings.
    The value is inserted raw, without escaping. */
module Expressions {

  /** The field name, an equals sign and the value in single quotes, the value unescaped. */
  function EqualsClause(fieldName: string, value: string): string
  {
    fieldName + " = '" + value + "'"
  }

  /** For one field, the clause determines the value: two different values never give the same
      clause, so a single selection cannot be mistaken for another. */
  lemma EqualsClauseInjective(fieldName: string, a: string, b: string)
    requires EqualsClause(fieldName, a) == EqualsClause(fieldName, b)
    ensures a == b
  {
    var ca, cb := EqualsClause(fieldName, a), EqualsClause(fieldName, b);
    assert |ca| == |fieldName| + |a| + 5;
    assert |cb| == |fieldName| + |b| + 5;
    assert ca[|fieldName| + 4..|ca| - 1] == a;
    assert cb[|fieldName| + 4..|cb| - 1] == b;
  }
}
