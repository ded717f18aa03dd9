/** Small types shared by every module of the model. */
module Foundations {

  datatype Option<+T> = None | Some(value: T)

  /** SQL's COALESCE(column, value) on a nullable column. */
  function Coalesce<T>(column: Option<T>, value: T): Option<T> {
    if column.Some? then column else Some(value)
  }

  /** The error values the modelled operations return. */
  datatype Error =
    | InvalidInput
    | InvalidMoney
    | InvalidGrant
    | InvalidSource
    | Forbidden
    | ReasonRequired
    | MfaRequired
    | ReplayMismatch
    | NotFound
    | Conflict
    | SchemaViolation

  datatype Result<+T> = Success(value: T) | Failure(error: Error) {
    predicate IsFailure() { Failure? }

    function PropagateFailure<U>(): Result<U>
      requires Failure?
    {
      Failure(error)
    }

    function Extract(): T
      requires Success?
    {
      value
    }
  }

  /** What the tables store: whole microseconds since the zero time; 0 is the zero time itself. */
  type Micros = nat

  type Nanos = n: nat | n < 1000

  /**
   * What a clock reads: microseconds and the nanoseconds beyond them. DATETIME(6) keeps the nearest
   * microsecond. No reading falls into the first microsecond but the zero time itself.
   */
  datatype Instant = Instant(at: Micros, nanos: Nanos) {
    predicate Zero() { at == 0 }

    predicate Whole() { nanos == 0 }

    function Stored(): Micros { if nanos < 500 then at else at + 1 }

    function Plus(d: nat): Instant { Instant(at + d, nanos) }

    predicate Before(t: Micros) { at < t }

    predicate After(t: Micros) { t < at || (t == at && nanos != 0) }
  }

  /** A stored instant as it is read back. */
  function ReadBack(t: Micros): Instant { Instant(t, 0) }

  const DAY: nat := 86_400_000_000

  const MAX_UINT32: nat := 0xFFFF_FFFF

  function Max(a: nat, b: nat): nat { if a < b then b else a }
}

/** A stable sort by a strict order, standing for the sort library the source calls. */
module Sorting {

  ghost predicate StrictWeakOrder<T(!new)>(less: (T, T) -> bool) {
    && (forall a :: !less(a, a))
    && (forall a, b, c :: less(a, b) && less(b, c) ==> less(a, c))
    && (forall a, b, c :: less(a, c) ==> less(a, b) || less(b, c))
  }

  /** No later element must come before an earlier one. */
  ghost predicate Sorted<T(!new)>(less: (T, T) -> bool, s: seq<T>) {
    forall i, j :: 0 <= i < j < |s| ==> !less(s[j], s[i])
  }

  /** Inserts x before the first element it must precede or tie with. */
  function Insert<T>(less: (T, T) -> bool, x: T, s: seq<T>): seq<T> {
    if s == [] then [x]
    else if less(s[0], x) then [s[0]] + Insert(less, x, s[1..])
    else [x] + s
  }

  function Sort<T>(less: (T, T) -> bool, s: seq<T>): seq<T> {
    if s == [] then [] else Insert(less, s[0], Sort(less, s[1..]))
  }

  lemma {:induction false} InsertPermutes<T>(less: (T, T) -> bool, x: T, s: seq<T>)
    ensures multiset(Insert(less, x, s)) == multiset(s) + multiset{x}
    ensures forall y :: y in Insert(less, x, s) ==> y == x || y in s
  {
    if s != [] {
      assert s == [s[0]] + s[1..];
      if less(s[0], x) { InsertPermutes(less, x, s[1..]); }
    }
  }

  lemma {:induction false} InsertSorted<T(!new)>(less: (T, T) -> bool, x: T, s: seq<T>)
    requires StrictWeakOrder(less) && Sorted(less, s)
    ensures Sorted(less, Insert(less, x, s))
  {
    if s != [] {
      if less(s[0], x) {
        InsertSorted(less, x, s[1..]);
        InsertPermutes(less, x, s[1..]);
        var tail := Insert(less, x, s[1..]);
        forall i | 0 <= i < |tail|
          ensures !less(tail[i], s[0])
        {
          assert tail[i] in tail;
        }
      } else {
        forall j | 0 <= j < |s|
          ensures !less(s[j], x)
        {
        }
      }
    }
  }

  /** Sorting permutes and orders. */
  lemma {:induction false} SortCorrect<T(!new)>(less: (T, T) -> bool, s: seq<T>)
    requires StrictWeakOrder(less)
    ensures multiset(Sort(less, s)) == multiset(s)
    ensures Sorted(less, Sort(less, s))
    ensures |Sort(less, s)| == |s|
    ensures forall x :: x in Sort(less, s) <==> x in s
  {
    if s != [] {
      assert s == [s[0]] + s[1..];
      SortCorrect(less, s[1..]);
      InsertSorted(less, s[0], Sort(less, s[1..]));
      InsertPermutes(less, s[0], Sort(less, s[1..]));
    }
    assert |multiset(Sort(less, s))| == |multiset(s)|;
    forall x
      ensures x in Sort(less, s) <==> x in s
    {
      assert x in multiset(Sort(less, s)) <==> x in multiset(s);
    }
  }
}
