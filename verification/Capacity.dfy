/** `extractStorage` of driver/controller.go and the volume sizes made from it. */
module Capacity {
  import opened Wrappers

  const MINIMUM_SIZE: int := GIB
  const MAXIMUM_SIZE: int := 16 * TIB
  const DEFAULT_SIZE: int := 16 * GIB

  /** A capacity range; a bound that is not positive is not set. */
  datatype CapacityRange = CapacityRange(required: int, limit: int) {
    predicate RequiredSet() {
      0 < required
    }

    predicate LimitSet() {
      0 < limit
    }
  }

  function ExtractStorage(range: Option<CapacityRange>): Result<int> {
    match range
    case None => Ok(DEFAULT_SIZE)
    case Some(r) =>
      if !r.RequiredSet() && !r.LimitSet() then Ok(DEFAULT_SIZE)
      else if r.RequiredSet() && r.LimitSet() && r.limit < r.required then Err(OutOfRange)
      else if r.RequiredSet() && !r.LimitSet() && r.required < MINIMUM_SIZE then Ok(MINIMUM_SIZE)
      else if r.LimitSet() && r.limit < MINIMUM_SIZE then Err(OutOfRange)
      else if r.RequiredSet() && MAXIMUM_SIZE < r.required then Err(OutOfRange)
      else if !r.RequiredSet() && r.LimitSet() && MAXIMUM_SIZE < r.limit then Err(OutOfRange)
      else if r.RequiredSet() && r.LimitSet() && r.required == r.limit then Ok(r.required)
      else if r.RequiredSet() then Ok(r.required)
      else if r.LimitSet() then Ok(r.limit)
      else Ok(DEFAULT_SIZE)
  }

  /** A required size below the minimum, with a limit that is not. */
  predicate BelowMinimum(range: Option<CapacityRange>) {
    range.Some? && 0 < range.value.required < MINIMUM_SIZE <= range.value.limit
  }

  /** A size the range asks for and the platform supports. */
  predicate Satisfies(size: int, r: CapacityRange) {
    && MINIMUM_SIZE <= size <= MAXIMUM_SIZE
    && (r.RequiredSet() ==> r.required <= size)
    && (r.LimitSet() ==> size <= r.limit)
  }

  /** A range is accepted exactly if some supported size satisfies it, except that
      a limit beyond the maximum is refused when it stands alone. */
  lemma AcceptedExactly(r: CapacityRange)
    ensures ExtractStorage(Some(r)).Ok?
       <==> (exists size :: Satisfies(size, r)) && (r.RequiredSet() || r.limit <= MAXIMUM_SIZE)
  {
    var candidate := if r.RequiredSet() then Max(r.required, MINIMUM_SIZE) else MINIMUM_SIZE;
    if ExtractStorage(Some(r)).Ok? {
      assert Satisfies(candidate, r);
    }
  }

  /** The size taken lies in the range, and is supported except exactly when a
      required size below the minimum comes with a limit. */
  lemma AcceptedSize(r: CapacityRange)
    requires ExtractStorage(Some(r)).Ok?
    ensures var size := ExtractStorage(Some(r)).value;
            && (r.RequiredSet() ==> r.required <= size)
            && (r.LimitSet() ==> size <= r.limit)
            && 0 < size <= MAXIMUM_SIZE
            && (size < MINIMUM_SIZE <==> BelowMinimum(Some(r)))
            // It is the least size in the range, or the greatest if only a limit is set.
            && (forall other :: Satisfies(other, r) && r.RequiredSet() ==> size <= other)
            && (forall other :: Satisfies(other, r) && !r.RequiredSet() && r.LimitSet() ==> other <= size)
  {
  }

  /** Without a range, or with one that sets neither bound, 16 GiB are taken. */
  lemma DefaultTaken(required: int, limit: int)
    requires required <= 0 && limit <= 0
    ensures ExtractStorage(None) == Ok(16 * 0x4000_0000)
    ensures ExtractStorage(Some(CapacityRange(required, limit))) == Ok(16 * 0x4000_0000)
  {
  }

  /** Exactly which ranges are refused, in bytes: contradictory ones, limits below 1 GiB
      next to which the required size is not raised, and sizes above 16 TiB. */
  lemma RefusedExactly(required: int, limit: int)
    ensures ExtractStorage(Some(CapacityRange(required, limit))).Err? <==>
              || (0 < limit < required)
              || (0 < limit < 0x4000_0000)
              || 0x1000_0000_0000 < required
              || (required <= 0 && 0x1000_0000_0000 < limit)
  {
  }

  /** A limit of 17 TiB alone is refused, although every supported size satisfies it. */
  lemma LoneLimitRefused()
    ensures var r := CapacityRange(0, 17 * TIB);
            ExtractStorage(Some(r)) == Err(OutOfRange) && Satisfies(DEFAULT_SIZE, r)
  {
  }

  /** One byte, at most one GiB, is accepted as one byte, which makes no whole GiB. */
  lemma OneByteAccepted()
    ensures var r := CapacityRange(1, GIB);
            ExtractStorage(Some(r)) == Ok(1) && GigaBytes(1) == 0 && !Satisfies(1, r)
  {
  }

  /** Go's int64 division by giB. */
  function GigaBytes(size: int): int {
    size / GIB
  }

  /** What is provisioned for an accepted size: never more than asked for and less
      than one GiB short of it, so all of it exactly for a multiple of one GiB. The
      products the driver computes fit 64 bits. */
  lemma Provisioned(r: CapacityRange)
    requires ExtractStorage(Some(r)).Ok?
    ensures var size := ExtractStorage(Some(r)).value;
            && 0 <= GigaBytes(size) <= 16 * 1024
            && size - GIB < GigaBytes(size) * GIB <= size < 0x8000_0000_0000_0000
            && (size <= GigaBytes(size) * GIB <==> size % GIB == 0)
            && (r.RequiredSet() && (r.LimitSet() || MINIMUM_SIZE <= r.required) ==>
                  (r.required <= GigaBytes(size) * GIB <==> r.required % GIB == 0))
            && (GigaBytes(size) == 0 <==> size < MINIMUM_SIZE)
  {
    AcceptedSize(r);
    DivGib(ExtractStorage(Some(r)).value);
  }

  lemma DivGib(size: int)
    requires 0 <= size
    ensures size == GigaBytes(size) * GIB + size % GIB && 0 <= size % GIB < GIB && 0 <= GigaBytes(size)
  {
  }
}
