/** PHP values as they appear in the block editor's settings array, and the
    semantics of a PHP array literal with string keys. */
module PhpValues {

  /** A JSON-like PHP value: null, a boolean, an integer, a string or an
      array with string keys. */
  datatype Value =
    | Null
    | Bool(b: bool)
    | Int(i: int)
    | Str(s: string)
    | Dict(entries: map<string, Value>)

  /** The `$editor_settings` array handed to the `block_editor_settings` filter. */
  type Settings = map<string, Value>

  /** PHP's `isset( $a[$key] )`: a missing key and a key holding null are not
      set; a key holding any other value, `false` included, is. */
  predicate IsSet(a: map<string, Value>, key: string): (r: bool)
    ensures key !in a ==> !r
    ensures key in a && a[key] == Null ==> !r
    ensures key in a && a[key] == Bool(false) ==> r
    ensures r <==> key in a && !a[key].Null?
  {
    key in a && a[key] != Null
  }

  /** The pair at index `i` is the last one in `pairs` that uses its key. */
  predicate LastWithKey(pairs: seq<(string, Value)>, i: int)
    requires 0 <= i < |pairs|
  {
    forall j :: i < j < |pairs| ==> pairs[j].0 != pairs[i].0
  }

  /** The keys written in a PHP array literal with the given entries. */
  function KeySet(pairs: seq<(string, Value)>): set<string>
  {
    set i | 0 <= i < |pairs| :: pairs[i].0
  }

  /** The array built by a PHP array literal with the given entries, in order:
      exactly the keys written in the literal are present; which value each
      holds is stated by ArrayLiteralLastWins. */
  function ArrayLiteral(pairs: seq<(string, Value)>): (m: map<string, Value>)
    ensures m.Keys == KeySet(pairs)
  {
    if pairs == [] then map[]
    else
      var n := |pairs| - 1;
      var prefix := pairs[..n];
      assert KeySet(pairs) == KeySet(prefix) + {pairs[n].0} by {
        assert forall i :: 0 <= i < n ==> prefix[i] == pairs[i];
      }
      ArrayLiteral(prefix)[pairs[n].0 := pairs[n].1]
  }

  /** When a key is written more than once, the last entry wins; an entry
      whose key is not written again is stored as written. */
  lemma {:induction false} ArrayLiteralLastWins(pairs: seq<(string, Value)>, i: int)
    requires 0 <= i < |pairs| && LastWithKey(pairs, i)
    ensures pairs[i].0 in ArrayLiteral(pairs)
    ensures ArrayLiteral(pairs)[pairs[i].0] == pairs[i].1
  {
    var n := |pairs| - 1;
    if i < n {
      var prefix := pairs[..n];
      assert prefix[i] == pairs[i];
      assert LastWithKey(prefix, i);
      ArrayLiteralLastWins(prefix, i);
      assert pairs[n].0 != pairs[i].0;
    }
  }

  /** Every value in the built array was written in the literal under its key. */
  lemma {:induction false} ArrayLiteralWritten(pairs: seq<(string, Value)>, k: string)
    requires k in ArrayLiteral(pairs)
    ensures exists i :: 0 <= i < |pairs| && pairs[i].0 == k && ArrayLiteral(pairs)[k] == pairs[i].1
  {
    var n := |pairs| - 1;
    if pairs[n].0 != k {
      var prefix := pairs[..n];
      ArrayLiteralWritten(prefix, k);
      var i :| 0 <= i < n && prefix[i].0 == k && ArrayLiteral(prefix)[k] == prefix[i].1;
      assert pairs[i] == prefix[i];
    }
  }

}
