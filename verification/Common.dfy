/** Small value types shared by every module of the model: Option and
    Result, and the get-or-create step that every loader performs on a
    table held as a map from natural key to record. */
module Common {

  datatype Option<+T> = None | Some(value: T)

  datatype Result<+T, +E> = Ok(value: T) | Err(error: E)

  /** What a get-or-create returns: the stored record, whether it had to be
      inserted, and the table afterwards. */
  datatype Fetched<K, V> = Fetched(record: V, created: bool, table: map<K, V>)

  /** Django's `get_or_create` on a table keyed by a natural key: an existing
      row is returned untouched; otherwise `incoming` is inserted under `key`. */
  function GetOrCreate<K, V>(table: map<K, V>, key: K, incoming: V): (r: Fetched<K, V>)
    ensures r.created <==> key !in table
    ensures r.table.Keys == table.Keys + {key}
    ensures key in r.table && r.record == r.table[key]
    ensures forall k :: k in table ==> k in r.table && r.table[k] == table[k]
    ensures !r.created ==> r.table == table
    ensures r.created ==> r.record == incoming
  {
    if key in table then Fetched(table[key], false, table)
    else Fetched(incoming, true, table[key := incoming])
  }

  /** `after` is `before` with at most `key` added: every stored row is
      kept, and a row that was missing holds `incoming`. */
  predicate GrowsBy<K, V(==)>(before: map<K, V>, after: map<K, V>, key: K, incoming: V)
  {
    after.Keys == before.Keys + {key}
    && (forall k :: k in before ==> after[k] == before[k])
    && (key !in before ==> after[key] == incoming)
  }

  /** Two get-or-creates of the same key in a row: the second finds what the
      first stored and changes nothing. */
  lemma GetOrCreateTwice<K, V>(table: map<K, V>, key: K, incoming: V, other: V)
    ensures var first := GetOrCreate(table, key, incoming);
            var second := GetOrCreate(first.table, key, other);
            !second.created && second.table == first.table && second.record == first.record
  {
  }

  /** Splitting off the head of a non-empty left operand; stated once so
      that proofs over sequences of records need not rediscover it. */
  lemma ConsSplit<T>(s: seq<T>, t: seq<T>)
    requires s != []
    ensures s + t == [s[0]] + (s[1..] + t)
  {
    assert s == [s[0]] + s[1..];
  }

  lemma AppendAssociative<T>(a: seq<T>, b: seq<T>, c: seq<T>)
    ensures (a + b) + c == a + (b + c)
  {
  }
}
