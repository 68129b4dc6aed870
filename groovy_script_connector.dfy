/**
 * The Groovy script connector: it checks that a script is given and builds
 * the table of variables the script is evaluated against from rows of
 * (name, value) pairs. The evaluation itself belongs to the Groovy library.
 */
module GroovyScriptConnector {
  import opened Wrappers

  const ScriptNullMessage: string := "The script is null"

  /**
   * The engine's name for the API accessor binding
   * (`ExpressionConstants.API_ACCESSOR.getEngineConstantName()`).
   */
  const ApiAccessorName: string := "apiAccessor"

  /** `validateInputParameters`: the message of the exception it throws, if any. */
  function ValidateInputParameters(script: Option<string>): (error: Option<string>)
    ensures error.Some? <==> script.None?
    ensures error.Some? ==> error.value == ScriptNullMessage
  {
    if script.None? then Some(ScriptNullMessage) else None
  }

  /** An empty script passes validation; only a missing one is refused. */
  lemma EmptyScriptIsValid()
    ensures ValidateInputParameters(Some("")) == None
    ensures ValidateInputParameters(None) == Some(ScriptNullMessage)
  {
  }

  /** A row that binds a variable: exactly two elements, the first not null. */
  predicate IsBinding<V>(row: seq<Option<V>>)
  {
    |row| == 2 && row[0].Some?
  }

  /** The row binds the variable named `key`, the `toString` of its first element. */
  predicate BindsKey<V>(row: seq<Option<V>>, key: string, toString: V -> string)
  {
    IsBinding(row) && toString(row[0].value) == key
  }

  /** What a binding row binds its name to: the host's accessor for the reserved name, its second element otherwise. */
  function BoundValue<V>(row: seq<Option<V>>, toString: V -> string, accessor: Option<V>): Option<V>
    requires IsBinding(row)
  {
    if toString(row[0].value) == ApiAccessorName then accessor else row[1]
  }

  /** The table after putting the rows one after the other, later rows overwriting earlier ones. */
  function Bindings<V>(rows: seq<seq<Option<V>>>, toString: V -> string, accessor: Option<V>): map<string, Option<V>>
  {
    if rows == [] then map[]
    else
      var earlier := Bindings(rows[..|rows| - 1], toString, accessor);
      var row := rows[|rows| - 1];
      if IsBinding(row) then earlier[toString(row[0].value) := BoundValue(row, toString, accessor)]
      else earlier
  }

  /** The table for the `variables` input, which may be null. */
  function Variables<V>(context: Option<seq<seq<Option<V>>>>, toString: V -> string, accessor: Option<V>)
    : map<string, Option<V>>
  {
    match context
    case None => map[]
    case Some(rows) => Bindings(rows, toString, accessor)
  }

  /**
   * `getVariables`: a loop over the rows that puts every binding row into a
   * fresh map and skips the others.
   */
  method GetVariables<V>(context: Option<seq<seq<Option<V>>>>, toString: V -> string, accessor: Option<V>)
    returns (variables: map<string, Option<V>>)
    ensures variables == Variables(context, toString, accessor)
  {
    variables := map[];
    if context.Some? {
      var rows := context.value;
      for i := 0 to |rows|
        invariant variables == Bindings(rows[..i], toString, accessor)
      {
        assert rows[..i + 1][..i] == rows[..i];
        var row := rows[i];
        if |row| == 2 {
          var keyContent := row[0];
          var valueContent := row[1];
          if keyContent.Some? {
            var key := toString(keyContent.value);
            if key == ApiAccessorName {
              variables := variables[key := accessor];
            } else {
              variables := variables[key := valueContent];
            }
          }
        }
      }
      assert rows[..|rows|] == rows;
    }
  }

  /** A null `variables` input gives an empty table. */
  lemma NullContextIsEmpty<V>(toString: V -> string, accessor: Option<V>)
    ensures Variables(None, toString, accessor) == map[]
  {
  }

  /** Putting two blocks of rows one after the other: the second block's bindings win. */
  lemma {:induction false} BindingsConcat<V>(a: seq<seq<Option<V>>>, b: seq<seq<Option<V>>>, toString: V -> string, accessor: Option<V>)
    ensures Bindings(a + b, toString, accessor) == Bindings(a, toString, accessor) + Bindings(b, toString, accessor)
    decreases |b|
  {
    if b == [] {
      assert a + b == a;
    } else {
      var b' := b[..|b| - 1];
      assert (a + b)[..|a + b| - 1] == a + b';
      assert (a + b)[|a + b| - 1] == b[|b| - 1];
      BindingsConcat(a, b', toString, accessor);
    }
  }

  /** A row that is not a binding (wrong size or null name) contributes nothing, wherever it stands. */
  lemma MalformedRowIgnored<V>(a: seq<seq<Option<V>>>, row: seq<Option<V>>, b: seq<seq<Option<V>>>,
                               toString: V -> string, accessor: Option<V>)
    requires !IsBinding(row)
    ensures Bindings(a + [row] + b, toString, accessor) == Bindings(a + b, toString, accessor)
  {
    BindingsConcat(a + [row], b, toString, accessor);
    BindingsConcat(a, b, toString, accessor);
    assert (a + [row])[..|a + [row]| - 1] == a;
  }

  /** The table's names are exactly the names bound by the binding rows. */
  lemma {:induction false} BindingsDomain<V>(rows: seq<seq<Option<V>>>, toString: V -> string, accessor: Option<V>)
    ensures forall key :: key in Bindings(rows, toString, accessor)
              <==> exists i :: 0 <= i < |rows| && BindsKey(rows[i], key, toString)
    decreases |rows|
  {
    if rows != [] {
      var earlier := rows[..|rows| - 1];
      BindingsDomain(earlier, toString, accessor);
      forall key ensures key in Bindings(rows, toString, accessor)
                     <==> exists i :: 0 <= i < |rows| && BindsKey(rows[i], key, toString)
      {
        if key in Bindings(rows, toString, accessor) {
          if key in Bindings(earlier, toString, accessor) {
            var i :| 0 <= i < |earlier| && BindsKey(earlier[i], key, toString);
            assert BindsKey(rows[i], key, toString);
          } else {
            assert BindsKey(rows[|rows| - 1], key, toString);
          }
        }
        if exists i :: 0 <= i < |rows| && BindsKey(rows[i], key, toString) {
          var i :| 0 <= i < |rows| && BindsKey(rows[i], key, toString);
          if i < |rows| - 1 {
            assert BindsKey(earlier[i], key, toString);
          }
        }
      }
    }
  }

  /**
   * Last put wins: a binding row that no later binding row overrides
   * determines its name's value.
   */
  lemma {:induction false} LastBindingWins<V>(rows: seq<seq<Option<V>>>, i: nat, toString: V -> string, accessor: Option<V>)
    requires i < |rows| && IsBinding(rows[i])
    requires forall j :: i < j < |rows| ==> !BindsKey(rows[j], toString(rows[i][0].value), toString)
    ensures toString(rows[i][0].value) in Bindings(rows, toString, accessor)
    ensures Bindings(rows, toString, accessor)[toString(rows[i][0].value)] == BoundValue(rows[i], toString, accessor)
    decreases |rows|
  {
    var earlier := rows[..|rows| - 1];
    if i < |rows| - 1 {
      assert earlier[i] == rows[i];
      LastBindingWins(earlier, i, toString, accessor);
      assert !BindsKey(rows[|rows| - 1], toString(rows[i][0].value), toString);
    }
  }

  /** A plain variable is bound to the value supplied with it. */
  lemma DependencyIsBound<V>(name: V, value: V, toString: V -> string, accessor: Option<V>)
    requires toString(name) == "count"
    ensures Variables(Some([[Some(name), Some(value)]]), toString, accessor) == map["count" := Some(value)]
  {
    var row := [Some(name), Some(value)];
    assert [row][..0] == [];
    assert IsBinding(row);
    assert Bindings([row], toString, accessor) == map[][toString(name) := BoundValue(row, toString, accessor)];
  }

  /** The reserved name is bound to the host's accessor; the supplied value is discarded. */
  lemma ProvidedAccessorReplacesValue<V>(name: V, value: V, toString: V -> string, accessor: Option<V>)
    requires toString(name) == ApiAccessorName
    ensures Variables(Some([[Some(name), Some(value)]]), toString, accessor) == map[ApiAccessorName := accessor]
  {
    var row := [Some(name), Some(value)];
    assert [row][..0] == [];
    assert IsBinding(row);
    assert Bindings([row], toString, accessor) == map[][toString(name) := BoundValue(row, toString, accessor)];
  }

  /** A null value with a non-null name is still bound, to null. */
  lemma NullValueIsBound<V>(name: V, toString: V -> string, accessor: Option<V>)
    requires toString(name) != ApiAccessorName
    ensures Variables(Some([[Some(name), None]]), toString, accessor) == map[toString(name) := None]
  {
    var row: seq<Option<V>> := [Some(name), None];
    assert [row][..0] == [];
    assert IsBinding(row);
    assert Bindings([row], toString, accessor) == map[][toString(name) := BoundValue(row, toString, accessor)];
  }
}
