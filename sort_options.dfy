/**
 * The six comparators of the bills and transactions pages, as "may precede"
 * relations over a record's timestamp, name and amount:
 *   latest  `(a, b) => time(b) - time(a)`      oldest `(a, b) => time(a) - time(b)`
 *   az      `a.name.localeCompare(b.name)`      za     `b.name.localeCompare(a.name)`
 *   highest `(a, b) => b.amount - a.amount`     lowest `(a, b) => a.amount - b.amount`
 */
module SortOptions {
  import opened Records
  import opened Sorting
  import opened Text

  /** `compare(x, y) <= 0` for the comparator of `opt`, on the keys of two records. */
  predicate KeyLe(opt: SortOption, t1: int, n1: string, a1: real, t2: int, n2: string, a2: real) {
    match opt
    case Latest => t1 >= t2
    case Oldest => t1 <= t2
    case AZ => LexLe(n1, n2)
    case ZA => LexLe(n2, n1)
    case Highest => a1 >= a2
    case Lowest => a1 <= a2
  }

  /** The comparator of `opt` on records with the given timestamp, name and amount. */
  function ByKeys<T>(opt: SortOption, time: T -> int, name: T -> string, amount: T -> real): (T, T) -> bool {
    (x: T, y: T) => KeyLe(opt, time(x), name(x), amount(x), time(y), name(y), amount(y))
  }

  function TxTime(t: Transaction): int { t.date.time }
  function TxName(t: Transaction): string { t.name }
  function TxAmount(t: Transaction): real { t.amount }

  /** The comparator of `opt` on transactions. */
  function TxLe(opt: SortOption): (Transaction, Transaction) -> bool {
    ByKeys(opt, TxTime, TxName, TxAmount)
  }

  lemma ByKeysApply<T>(opt: SortOption, time: T -> int, name: T -> string, amount: T -> real, x: T, y: T)
    ensures ByKeys(opt, time, name, amount)(x, y) == KeyLe(opt, time(x), name(x), amount(x), time(y), name(y), amount(y))
  {
  }

  lemma KeyLeTotal(opt: SortOption, t1: int, n1: string, a1: real, t2: int, n2: string, a2: real)
    ensures KeyLe(opt, t1, n1, a1, t2, n2, a2) || KeyLe(opt, t2, n2, a2, t1, n1, a1)
  {
    LexLeTotal(n1, n2);
  }

  lemma KeyLeTransitive(opt: SortOption, t1: int, n1: string, a1: real, t2: int, n2: string, a2: real,
                        t3: int, n3: string, a3: real)
    requires KeyLe(opt, t1, n1, a1, t2, n2, a2) && KeyLe(opt, t2, n2, a2, t3, n3, a3)
    ensures KeyLe(opt, t1, n1, a1, t3, n3, a3)
  {
    if opt == AZ {
      LexLeTransitive(n1, n2, n3);
    } else if opt == ZA {
      LexLeTransitive(n3, n2, n1);
    }
  }

  /** Every one of the six comparators is consistent, so the engine's stable sort is `SortBy`. */
  lemma ByKeysTotalPreorder<T(!new)>(opt: SortOption, time: T -> int, name: T -> string, amount: T -> real)
    ensures TotalPreorder(ByKeys(opt, time, name, amount))
  {
    var le := ByKeys(opt, time, name, amount);
    forall x, y ensures le(x, y) || le(y, x) {
      KeyLeTotal(opt, time(x), name(x), amount(x), time(y), name(y), amount(y));
    }
    forall x, y, z | le(x, y) && le(y, z) ensures le(x, z) {
      KeyLeTransitive(opt, time(x), name(x), amount(x), time(y), name(y), amount(y), time(z), name(z), amount(z));
    }
  }
}
