/** Small vocabulary shared by every module: optional values, outcomes, and SQL-like tables. */
module Tables {

  datatype Option<+T> = None | Some(value: T)

  datatype Result<+T, +E> = Success(value: T) | Failure(error: E)

  /** A table with an `INTEGER PRIMARY KEY AUTOINCREMENT` column: `next` is the id the next
      insert receives. It never goes back, so a deleted id is never handed out again. */
  datatype Table<T> = Table(rows: map<int, T>, next: int) {
    predicate Valid() {
      0 < next && forall k :: k in rows ==> 0 < k < next
    }

    function Insert(row: T): Table<T> {
      Table(rows[next := row], next + 1)
    }

    function Set(id: int, row: T): Table<T> {
      Table(rows[id := row], next)
    }

    function Keep(ids: set<int>): Table<T> {
      Table(map k | k in rows && k in ids :: rows[k], next)
    }
  }

  /** `later` still holds every row of `earlier`, unchanged: what an insert-only table promises. */
  ghost predicate Extends<T(!new)>(earlier: map<int, T>, later: map<int, T>) {
    forall k :: k in earlier ==> k in later && later[k] == earlier[k]
  }

  /** Maps are equal when they have the same keys and agree on them. */
  lemma SameMap<K, V>(a: map<K, V>, b: map<K, V>)
    requires forall k :: k in a <==> k in b
    requires forall k :: k in a ==> a[k] == b[k]
    ensures a == b
  {
  }

  /** Any member of a set. */
  method Pick<T(==)>(s: set<T>) returns (x: T)
    requires s != {}
    ensures x in s
  {
    x :| x in s;
  }

  /** Some key of a map that is not empty. */
  lemma AnyKey<K, V>(m: map<K, V>) returns (k: K)
    requires m != map[]
    ensures k in m
  {
    k :| k in m;
  }
}
