/**
 * The rows of the merchant and payment-channel tables, the columns a user
 * can sort by, and the three-way comparator the tables hand to
 * `Array.prototype.sort`.
 */
module Records {
  import opened Text

  /**
   * One merchant or payment channel. Amounts and counts are whole numbers;
   * the two rates are decimals (percentages).
   */
  datatype Record = Record(
    id: int,
    name: string,
    totalPayments: int,
    transactionCount: int,
    successRate: real,
    growthRate: real)

  /** The sortable table columns (the headers that call handleSort). */
  datatype Column = Name | TotalPayments | TransactionCount | SuccessRate | GrowthRate

  datatype Direction = Asc | Desc

  /** The value `a[sortColumn]` reads: a string for the name column, a number otherwise. */
  datatype Key = Text(s: string) | Number(v: real)

  function KeyOf(col: Column, r: Record): Key
  {
    match col
    case Name => Text(r.name)
    case TotalPayments => Number(r.totalPayments as real)
    case TransactionCount => Number(r.transactionCount as real)
    case SuccessRate => Number(r.successRate)
    case GrowthRate => Number(r.growthRate)
  }

  /** JavaScript's `<` between two values of one column. */
  predicate KeyLess(a: Key, b: Key)
  {
    match (a, b)
    case (Text(x), Text(y)) => StrLess(x, y)
    case (Number(x), Number(y)) => x < y
    case _ => false
  }

  /** `a <= b` for two keys of one column. */
  predicate KeyLe(a: Key, b: Key)
  {
    KeyLess(a, b) || a == b
  }

  /**
   * The comparator of the table view: negative when `a` goes first, positive
   * when `b` goes first, zero when the column values are equal.
   */
  function Compare(col: Column, dir: Direction, a: Record, b: Record): int
  {
    var ka, kb := KeyOf(col, a), KeyOf(col, b);
    if KeyLess(ka, kb) then (if dir == Asc then -1 else 1)
    else if KeyLess(kb, ka) then (if dir == Asc then 1 else -1)
    else 0
  }

  /** `a` may stand before `b` in a table sorted by `col` in direction `dir`. */
  predicate InOrder(col: Column, dir: Direction, a: Record, b: Record)
  {
    Compare(col, dir, a, b) <= 0
  }

  lemma KeyLessAsymmetric(a: Key, b: Key)
    ensures !(KeyLess(a, b) && KeyLess(b, a))
  {
    if a.Text? && b.Text? {
      StrLessAsymmetric(a.s, b.s);
    }
  }

  lemma KeyLessIrreflexive(a: Key)
    ensures !KeyLess(a, a)
  {
    if a.Text? {
      StrLessIrreflexive(a.s);
    }
  }

  lemma KeyLessTransitive(a: Key, b: Key, c: Key)
    requires KeyLess(a, b) && KeyLess(b, c)
    ensures KeyLess(a, c)
  {
    if a.Text? {
      StrLessTransitive(a.s, b.s, c.s);
    }
  }

  /** Two values of one column are equal or ordered one way or the other. */
  lemma KeyTrichotomy(col: Column, a: Record, b: Record)
    ensures KeyOf(col, a) == KeyOf(col, b) || KeyLess(KeyOf(col, a), KeyOf(col, b)) || KeyLess(KeyOf(col, b), KeyOf(col, a))
  {
    if col == Name {
      StrLessTrichotomy(a.name, b.name);
    }
  }

  /** Swapping the operands negates the comparator. */
  lemma CompareAntisymmetric(col: Column, dir: Direction, a: Record, b: Record)
    ensures Compare(col, dir, a, b) == -Compare(col, dir, b, a)
  {
    KeyLessAsymmetric(KeyOf(col, a), KeyOf(col, b));
  }

  /** The comparator answers 0 exactly for records whose column values are equal. */
  lemma CompareZeroIffSameKey(col: Column, dir: Direction, a: Record, b: Record)
    ensures Compare(col, dir, a, b) == 0 <==> KeyOf(col, a) == KeyOf(col, b)
  {
    KeyTrichotomy(col, a, b);
    KeyLessIrreflexive(KeyOf(col, a));
  }

  /** What InOrder means: descending puts the larger value first, ascending the smaller. */
  lemma InOrderMeaning(col: Column, dir: Direction, a: Record, b: Record)
    ensures InOrder(col, dir, a, b) <==>
      if dir == Desc then KeyLe(KeyOf(col, b), KeyOf(col, a)) else KeyLe(KeyOf(col, a), KeyOf(col, b))
  {
    KeyTrichotomy(col, a, b);
    KeyLessAsymmetric(KeyOf(col, a), KeyOf(col, b));
    KeyLessIrreflexive(KeyOf(col, a));
  }

  lemma InOrderTransitive(col: Column, dir: Direction, a: Record, b: Record, c: Record)
    requires InOrder(col, dir, a, b) && InOrder(col, dir, b, c)
    ensures InOrder(col, dir, a, c)
  {
    InOrderMeaning(col, dir, a, b);
    InOrderMeaning(col, dir, b, c);
    InOrderMeaning(col, dir, a, c);
    var ka, kb, kc := KeyOf(col, a), KeyOf(col, b), KeyOf(col, c);
    if dir == Desc {
      if KeyLess(kc, kb) && KeyLess(kb, ka) {
        KeyLessTransitive(kc, kb, ka);
      }
    } else {
      if KeyLess(ka, kb) && KeyLess(kb, kc) {
        KeyLessTransitive(ka, kb, kc);
      }
    }
  }

  /** Ascending order is descending order read from the other end. */
  lemma CompareFlipDirection(col: Column, a: Record, b: Record)
    ensures Compare(col, Asc, a, b) == Compare(col, Desc, b, a)
  {
    KeyLessAsymmetric(KeyOf(col, a), KeyOf(col, b));
  }
}
