/** Vocabulary shared by every module: row ids, optional values, and the
    service errors of internal/domain/errors.go. */
module Common {
  /** A row id. Ids are 16-byte UUIDs; module Uuid shows that comparing them as
      byte strings is the same as comparing the numbers they spell. */
  type Id = nat

  /** The all-zero UUID, which the services treat as "not supplied". */
  const NIL: Id := 0

  datatype Option<+T> = None | Some(value: T)

  datatype Error =
    | NotFound
    | InvalidInput
    | InsufficientStock
    | InvalidTransition
    | AreaConservation
    | AlreadyFinalized
    | PreconditionFailed
    | DbError  // a constraint of the database refused the statement

  datatype Result<+T> = Ok(value: T) | Err(error: Error)

  function Lookup<K, V>(m: map<K, V>, k: K): Option<V> {
    if k in m then Some(m[k]) else None
  }

  predicate IsLeast(s: set<Id>, k: Id) {
    k in s && forall x :: x in s ==> k <= x
  }

  lemma {:induction false} LeastExists(s: set<Id>)
    requires s != {}
    ensures exists k :: IsLeast(s, k)
    decreases s
  {
    var a :| a in s;
    var rest := s - {a};
    if rest == {} {
      assert s == {a};
      assert IsLeast(s, a);
    } else {
      LeastExists(rest);
      var b :| IsLeast(rest, b);
      var k := if a <= b then a else b;
      forall x | x in s
        ensures k <= x
      {
        assert x == a || x in rest;
      }
      assert IsLeast(s, k);
    }
  }

  /** The smallest id of a non-empty set: the order in which sums over a table
      visit its rows. */
  function Least(s: set<Id>): (k: Id)
    requires s != {}
    ensures IsLeast(s, k)
  {
    LeastExists(s);
    var k :| IsLeast(s, k);
    k
  }
}
