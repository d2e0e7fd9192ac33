/** Small shared vocabulary: optional values and the identifiers the tables use. */
module Base {

  datatype Option<+T> = None | Some(value: T)

  // UUIDs are opaque names; only their equality matters.
  type AttemptId = nat
  type ExecutionId = nat
  type PackageId = nat
  type OperationId = nat
  type Ref = string
  type Actor = string
  // Instants, in the microsecond resolution the database keeps.
  type Time = int

  // ---- sequences as sets ----

  function SetOf<T(==)>(s: seq<T>): set<T> {
    set i | 0 <= i < |s| :: s[i]
  }

  predicate NoRepeat<T(==)>(s: seq<T>) {
    forall i, j :: 0 <= i < j < |s| ==> s[i] != s[j]
  }

  lemma SetOfAppend<T>(s: seq<T>, x: T)
    ensures SetOf(s + [x]) == SetOf(s) + {x}
    ensures x !in SetOf(s) && NoRepeat(s) ==> NoRepeat(s + [x])
  {
    var more := s + [x];
    assert more[|s|] == x;
    forall y | y in SetOf(s) ensures y in SetOf(more) {
      var i :| 0 <= i < |s| && s[i] == y;
      assert more[i] == y;
    }
  }

  lemma SetOfPrefix<T>(s: seq<T>, i: nat)
    requires i < |s|
    ensures SetOf(s[..i + 1]) == SetOf(s[..i]) + {s[i]}
    ensures NoRepeat(s) ==> s[i] !in SetOf(s[..i])
  {
    assert s[..i + 1] == s[..i] + [s[i]];
    SetOfAppend(s[..i], s[i]);
  }
}
