/** A database table with an auto-incrementing `id` primary key, an optional
    unique key over other columns, and the row-level effects of foreign-key
    actions: `cascade` removes rows, `set null` rewrites them. */
module Tables {

  import opened Wrappers

  /** Why a write is refused. */
  datatype DbError =
    | MissingValue(column: string)           // NOT NULL column without default, not supplied
    | InvalidEnum(column: string, value: string)
    | DuplicateKey                           // a unique index already holds the key
    | ForeignKeyViolation(column: string)    // the referenced row does not exist, or still is referenced

  /** Rows by id; `nextId` is the next value of the auto-increment counter. */
  datatype Table<R> = Table(rows: map<nat, R>, nextId: nat)

  function Empty<R>(): (t: Table<R>)
    ensures IdsBelowNext(t)
    ensures |t.rows| == 0
  {
    Table(map[], 0)
  }

  /** Every id in use was issued by the counter. */
  predicate IdsBelowNext<R>(t: Table<R>) {
    forall id :: id in t.rows ==> id < t.nextId
  }

  /** No two rows share a value of `key`. */
  predicate UniqueOn<R, K(==)>(t: Table<R>, key: R -> K) {
    forall a, b :: a in t.rows && b in t.rows && key(t.rows[a]) == key(t.rows[b]) ==> a == b
  }

  predicate Valid<R, K(==)>(t: Table<R>, key: R -> K) {
    IdsBelowNext(t) && UniqueOn(t, key)
  }

  /** Some row already has key value `k`. */
  predicate HasKey<R, K(==)>(t: Table<R>, key: R -> K, k: K) {
    exists id :: id in t.rows && key(t.rows[id]) == k
  }

  /** The ids of the rows with key value `k`. */
  function RowsWithKey<R, K(==)>(t: Table<R>, key: R -> K, k: K): set<nat> {
    set id | id in t.rows && key(t.rows[id]) == k
  }

  /** Appending a row under a fresh id; the other rows are untouched. */
  function Add<R>(t: Table<R>, row: R): (r: Table<R>)
    ensures t.nextId in r.rows && r.rows[t.nextId] == row
    ensures r.nextId > t.nextId
    ensures IdsBelowNext(t) ==> t.nextId !in t.rows && r.rows.Keys == t.rows.Keys + {t.nextId}
    ensures forall id :: id in t.rows && id != t.nextId ==> id in r.rows && r.rows[id] == t.rows[id]
    ensures IdsBelowNext(t) ==> IdsBelowNext(r)
  {
    Table(t.rows[t.nextId := row], t.nextId + 1)
  }

  /** An INSERT into a table with a unique index on `key`: refused exactly
      when a row with the same key exists. */
  function Insert<R, K(==)>(t: Table<R>, key: R -> K, row: R): (r: Result<Table<R>, DbError>)
    ensures r.Failure? <==> HasKey(t, key, key(row))
    ensures r.Failure? ==> r.error == DuplicateKey
    ensures r.Success? ==> r.value == Add(t, row)
    ensures r.Success? && Valid(t, key) ==> Valid(r.value, key)
  {
    if HasKey(t, key, key(row)) then Failure(DuplicateKey)
    else
      var u := Add(t, row);
      assert UniqueOn(t, key) ==> UniqueOn(u, key) by {
        if UniqueOn(t, key) {
          assert forall id :: id in t.rows ==> key(t.rows[id]) != key(row);
          forall a, b | a in u.rows && b in u.rows && key(u.rows[a]) == key(u.rows[b])
            ensures a == b
          {
            if a != t.nextId && b != t.nextId {
              assert key(t.rows[a]) == key(t.rows[b]);
            }
          }
        }
      }
      Success(u)
  }

  /** In a valid table at most one row carries any given key. */
  lemma AtMostOneRowPerKey<R, K>(t: Table<R>, key: R -> K, k: K)
    requires UniqueOn(t, key)
    ensures |RowsWithKey(t, key, k)| <= 1
  {
    var s := RowsWithKey(t, key, k);
    if s != {} {
      var a :| a in s;
      assert s == {a};
    }
  }

  /** Deleting the row with id `id`; the counter is not rewound. */
  function Remove<R>(t: Table<R>, id: nat): (r: Table<R>)
    ensures r.nextId == t.nextId
    ensures r.rows.Keys == t.rows.Keys - {id}
    ensures forall k :: k in r.rows ==> r.rows[k] == t.rows[k]
    ensures IdsBelowNext(t) ==> IdsBelowNext(r)
  {
    Table(t.rows - {id}, t.nextId)
  }

  /** The effect of `ON DELETE CASCADE`: the rows that `gone` selects disappear,
      every other row stays as it was. */
  function DeleteWhere<R>(t: Table<R>, gone: R -> bool): (r: Table<R>)
    ensures r.nextId == t.nextId
    ensures forall id :: id in r.rows <==> id in t.rows && !gone(t.rows[id])
    ensures forall id :: id in r.rows ==> r.rows[id] == t.rows[id]
  {
    Table(map id | id in t.rows && !gone(t.rows[id]) :: t.rows[id], t.nextId)
  }

  /** Removing rows never breaks the id counter or a unique key. */
  lemma DeleteWherePreservesValid<R, K>(t: Table<R>, key: R -> K, gone: R -> bool)
    requires Valid(t, key)
    ensures Valid(DeleteWhere(t, gone), key)
  {
  }

  /** The effect of `ON DELETE SET NULL`: every row passes through `f`; no row
      appears or disappears. */
  function UpdateAll<R>(t: Table<R>, f: R -> R): (r: Table<R>)
    ensures r.nextId == t.nextId
    ensures r.rows.Keys == t.rows.Keys
    ensures forall id :: id in t.rows ==> r.rows[id] == f(t.rows[id])
  {
    Table(map id | id in t.rows :: f(t.rows[id]), t.nextId)
  }

  /** A rewrite that keeps every row's key keeps the key unique. */
  lemma UpdateAllPreservesValid<R, K>(t: Table<R>, key: R -> K, f: R -> R)
    requires Valid(t, key)
    requires forall id :: id in t.rows ==> key(f(t.rows[id])) == key(t.rows[id])
    ensures Valid(UpdateAll(t, f), key)
  {
    var u := UpdateAll(t, f);
    forall a, b | a in u.rows && b in u.rows && key(u.rows[a]) == key(u.rows[b])
      ensures a == b
    {
      assert key(t.rows[a]) == key(t.rows[b]);
    }
  }
}
