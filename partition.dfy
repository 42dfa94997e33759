/**
 * Chunk partitioning of the upload loop: how many parts a file of a given
 * size is cut into, and which byte range each part covers.  Part numbers
 * start at 1, as in the source's `range(1, total_parts + 1)`.
 */
module Partition {

  /**
   * The number of parts: one per started chunk.  It is defined by
   * repeated subtraction so that proofs about the loop stay within linear
   * arithmetic; `TotalPartsFormula` shows it is the source's
   * `(file_size + chunk_size - 1) // chunk_size`.
   */
  function TotalParts(size: nat, chunk: nat): nat
    requires chunk > 0
    decreases size
  {
    if size == 0 then 0
    else if size <= chunk then 1
    else 1 + TotalParts(size - chunk, chunk)
  }

  /**
   * The product `a * b`, defined by recursion so that the verifier expands
   * it only where a proof asks for it (`TimesIsProduct` relates the two).
   */
  function Times(a: nat, b: nat): nat {
    if a == 0 then 0 else Times(a - 1, b) + b
  }

  lemma {:induction false} TimesIsProduct(a: nat, b: nat)
    ensures Times(a, b) == a * b
  {
    if a > 0 {
      TimesIsProduct(a - 1, b);
      assert (a - 1) * b + b == a * b;
    }
  }

  /** `start_pos = (part_number - 1) * chunk_size`. */
  function PartStart(n: nat, chunk: nat): nat
    requires n >= 1
  {
    Times(n - 1, chunk)
  }

  /** `end_pos = min(part_number * chunk_size, file_size)`. */
  function PartEnd(n: nat, chunk: nat, size: nat): nat {
    if Times(n, chunk) < size then Times(n, chunk) else size
  }

  /** `chunk_size_actual = end_pos - start_pos`. */
  function PartLength(n: nat, chunk: nat, size: nat): int
    requires n >= 1
  {
    PartEnd(n, chunk, size) - PartStart(n, chunk)
  }

  /**
   * Bytes reported as uploaded after part `n`: `part_number * chunk_size`,
   * clamped to the file size, so never more than the file holds.
   */
  function UploadedBytes(n: nat, chunk: nat, size: nat): (r: nat)
    ensures r <= size
  {
    var uploaded := Times(n, chunk);
    if uploaded > size then size else uploaded
  }

  /** Sum of the lengths of parts 1..n. */
  function SumLengths(n: nat, chunk: nat, size: nat): int {
    if n == 0 then 0 else SumLengths(n - 1, chunk, size) + PartLength(n, chunk, size)
  }

  // ---------------------------------------------------------------------
  // Arithmetic helpers

  lemma MulMonotone(a: int, b: int, c: nat)
    requires a <= b
    ensures a * c <= b * c
  {
    assert b * c - a * c == (b - a) * c;
  }

  /** `q` is the quotient of `b` by `c` exactly when `b` lies in `[q*c, (q+1)*c)`. */
  lemma DivCharacterised(b: int, c: nat, q: int)
    requires c > 0
    ensures (q * c <= b < q * c + c) <==> b / c == q
  {
    var d := b / c;
    assert d * c <= b < d * c + c;
    if q * c <= b < q * c + c {
      if d < q {
        assert (d + 1) * c == d * c + c;
        MulMonotone(d + 1, q, c);
      } else if q < d {
        assert (q + 1) * c == q * c + c;
        MulMonotone(q + 1, d, c);
      }
    }
  }

  // ---------------------------------------------------------------------
  // Properties of the partition

  /** The part count is the ceiling of size / chunk: the least `t` with `t * chunk >= size`. */
  lemma {:induction false} TotalPartsIsCeiling(size: nat, chunk: nat)
    requires chunk > 0
    ensures TotalParts(size, chunk) * chunk >= size
    ensures (TotalParts(size, chunk) - 1) * chunk < size
    ensures size > 0 <==> TotalParts(size, chunk) > 0
    decreases size
  {
    if size > chunk {
      var t' := TotalParts(size - chunk, chunk);
      TotalPartsIsCeiling(size - chunk, chunk);
      assert (t' + 1) * chunk == t' * chunk + chunk;
      assert (t' - 1) * chunk == t' * chunk - chunk;
    }
  }

  /** The part count is the source's `(file_size + chunk_size - 1) // chunk_size`. */
  lemma TotalPartsFormula(size: nat, chunk: nat)
    requires chunk > 0
    ensures TotalParts(size, chunk) == (size + chunk - 1) / chunk
  {
    var t := TotalParts(size, chunk);
    TotalPartsIsCeiling(size, chunk);
    assert (t - 1) * chunk == t * chunk - chunk;
    DivCharacterised(size + chunk - 1, chunk, t);
  }

  /** No smaller number of parts could hold the file. */
  lemma TotalPartsIsLeast(size: nat, chunk: nat, t: nat)
    requires chunk > 0
    requires t * chunk >= size
    ensures t >= TotalParts(size, chunk)
  {
    TotalPartsIsCeiling(size, chunk);
    if t < TotalParts(size, chunk) {
      MulMonotone(t, TotalParts(size, chunk) - 1, chunk);
    }
  }

  /** Every part but the last is a full chunk; it ends exactly where the next begins. */
  lemma FullPart(size: nat, chunk: nat, n: nat)
    requires chunk > 0
    requires 1 <= n < TotalParts(size, chunk)
    ensures PartEnd(n, chunk, size) == n * chunk == PartStart(n + 1, chunk)
    ensures PartLength(n, chunk, size) == chunk
  {
    TimesIsProduct(n, chunk);
    TimesIsProduct(n - 1, chunk);
    TotalPartsIsCeiling(size, chunk);
    MulMonotone(n, TotalParts(size, chunk) - 1, chunk);
    assert n * chunk - (n - 1) * chunk == chunk;
  }

  /** The last part ends at the end of the file and holds between 1 and `chunk` bytes. */
  lemma LastPart(size: nat, chunk: nat)
    requires chunk > 0
    requires size > 0
    ensures var t := TotalParts(size, chunk);
      && t >= 1
      && PartEnd(t, chunk, size) == size
      && 0 < PartLength(t, chunk, size) <= chunk
  {
    var t := TotalParts(size, chunk);
    TotalPartsIsCeiling(size, chunk);
    TimesIsProduct(t, chunk);
    TimesIsProduct(t - 1, chunk);
    assert t * chunk - (t - 1) * chunk == chunk;
  }

  /** Each part 1..total_parts lies inside the file and holds between 1 and `chunk` bytes. */
  lemma PartBounds(size: nat, chunk: nat, n: nat)
    requires chunk > 0
    requires 1 <= n <= TotalParts(size, chunk)
    ensures 0 <= PartStart(n, chunk) < PartEnd(n, chunk, size) <= size
    ensures 0 < PartLength(n, chunk, size) <= chunk
  {
    MulMonotone(0, n - 1, chunk);
    if n < TotalParts(size, chunk) {
      FullPart(size, chunk, n);
    } else {
      LastPart(size, chunk);
    }
  }

  /** The first part starts at byte 0. */
  lemma FirstPart(chunk: nat)
    ensures PartStart(1, chunk) == 0
  {
  }

  /**
   * Coverage without gap or overlap: byte `b` lies in the range of part `n`
   * (for `1 <= n <= total_parts`) exactly when `b` is a byte of the file and
   * `n` is `b / chunk + 1`.  So each byte of `[0, size)` belongs to exactly
   * one part, and no part holds a byte outside the file.
   */
  lemma ByteInPart(size: nat, chunk: nat, n: nat, b: int)
    requires chunk > 0
    requires 1 <= n <= TotalParts(size, chunk)
    ensures PartStart(n, chunk) <= b < PartEnd(n, chunk, size) <==> 0 <= b < size && b / chunk + 1 == n
  {
    TimesIsProduct(n, chunk);
    TimesIsProduct(n - 1, chunk);
    DivCharacterised(b, chunk, n - 1);
    assert (n - 1) * chunk + chunk == n * chunk;
    MulMonotone(0, n - 1, chunk);
  }

  /** Every byte of the file falls within the range of some part. */
  lemma ByteHasPart(size: nat, chunk: nat, b: int)
    requires chunk > 0
    requires 0 <= b < size
    ensures 1 <= b / chunk + 1 <= TotalParts(size, chunk)
  {
    var q := b / chunk;
    DivCharacterised(b, chunk, q);
    TotalPartsIsCeiling(size, chunk);
    if q + 1 > TotalParts(size, chunk) {
      MulMonotone(TotalParts(size, chunk), q, chunk);
    }
  }

  /** Distinct parts do not overlap: an earlier part ends before a later one starts. */
  lemma PartsDisjoint(size: nat, chunk: nat, n: nat, m: nat)
    requires chunk > 0
    requires 1 <= n < m <= TotalParts(size, chunk)
    ensures PartEnd(n, chunk, size) <= PartStart(m, chunk)
  {
    TimesIsProduct(n, chunk);
    TimesIsProduct(m - 1, chunk);
    MulMonotone(n, m - 1, chunk);
  }

  /**
   * The clamped progress figure equals the number of bytes actually in parts
   * 1..n, so after the last part it is the file size.
   */
  lemma {:induction false} UploadedBytesIsSumOfParts(size: nat, chunk: nat, n: nat)
    requires chunk > 0
    requires n <= TotalParts(size, chunk)
    ensures SumLengths(n, chunk, size) == UploadedBytes(n, chunk, size) == PartEnd(n, chunk, size)
  {
    if n == 0 {
    } else if n == 1 {
    } else {
      UploadedBytesIsSumOfParts(size, chunk, n - 1);
      FullPart(size, chunk, n - 1);
    }
  }

  /** The part lengths add up to the file size. */
  lemma PartsSumToSize(size: nat, chunk: nat)
    requires chunk > 0
    ensures SumLengths(TotalParts(size, chunk), chunk, size) == size
  {
    UploadedBytesIsSumOfParts(size, chunk, TotalParts(size, chunk));
    TotalPartsIsCeiling(size, chunk);
    if size > 0 {
      LastPart(size, chunk);
    }
  }

  /** 12 MiB in 5 MiB chunks: three parts of 5 MiB, 5 MiB and 2 MiB. */
  lemma TwelveMiBExample()
    ensures TotalParts(12582912, 5242880) == 3
    ensures PartStart(1, 5242880) == 0 && PartEnd(1, 5242880, 12582912) == 5242880
    ensures PartStart(2, 5242880) == 5242880 && PartEnd(2, 5242880, 12582912) == 10485760
    ensures PartStart(3, 5242880) == 10485760 && PartEnd(3, 5242880, 12582912) == 12582912
    ensures PartLength(3, 5242880, 12582912) == 2097152
  {
  }
}
