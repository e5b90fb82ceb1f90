/** Types shared by every module of the model. */
module Common {

  datatype Option<+T> = None | Some(value: T)

  /** Primary keys, lease tokens and partition keys. Only equality and a total order matter,
      so an identifier stands for its rank in the database's string order. */
  type Id = int

  /** An instant, in microseconds, as the database stores timestamps. */
  type Instant = int

  const SECOND: int := 1_000_000

  /** Names an element of a non-empty set. */
  lemma Pick<T>(s: set<T>) returns (x: T)
    requires s != {}
    ensures x in s
  {
    x :| x in s;
  }

  predicate Distinct<T(==)>(s: seq<T>) { forall i, j | 0 <= i < j < |s| :: s[i] != s[j] }
}
