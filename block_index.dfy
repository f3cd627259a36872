/** The lookup behind `CharBlock` (src/unicode/mod.rs): a binary search, with a
    three-way comparator, over a table of inclusive code-point ranges. Everything
    here holds for any table that is well formed; the table itself lives in
    module UnicodeBlocks. */
module BlockIndex {

  datatype Option<+T> = None | Some(value: T)

  /** Rust's `u32`, the integer type `char_block` searches with. */
  newtype u32 = x: int | 0 <= x < 0x1_0000_0000

  /** One row of the table: an inclusive range `[lo, hi]` and the block's name.
      The informational columns (code-point count, assigned count, scripts) are
      never read by the lookup and are not modelled. */
  datatype Block = Block(lo: nat, hi: nat, name: string)

  /** `std::cmp::Ordering`, as returned by the comparator closure. */
  datatype Ordering = Less | Equal | Greater

  /** Rust's `Result<usize, usize>` from `binary_search_by`: the index of a
      matching row, or the position where such a row would be inserted. */
  datatype SearchResult = Found(index: nat) | NotFound(insertAt: nat)

  predicate Contains(b: Block, c: int) {
    b.lo <= c <= b.hi
  }

  /** The table invariant: every row has `lo <= hi`, and each row ends strictly
      below the start of the next one (ascending, non-overlapping; gaps allowed). */
  predicate WellFormed(t: seq<Block>) {
    && (forall i :: 0 <= i < |t| ==> t[i].lo <= t[i].hi)
    && (forall i, j :: 0 <= i < |t| && 0 <= j < |t| && j == i + 1 ==> t[i].hi < t[j].lo)
  }

  /** The pairwise form of the ordering: any earlier row ends below any later row's start. */
  predicate Sorted(t: seq<Block>) {
    && (forall i :: 0 <= i < |t| ==> t[i].lo <= t[i].hi)
    && (forall i, j :: 0 <= i < j < |t| ==> t[i].hi < t[j].lo)
  }

  lemma {:induction false} WellFormedIsSorted(t: seq<Block>)
    requires WellFormed(t)
    ensures Sorted(t)
  {
    if |t| > 1 {
      var rest := t[1..];
      assert WellFormed(rest) by {
        forall i | 0 <= i < |rest| - 1 ensures rest[i].hi < rest[i + 1].lo {
          assert rest[i] == t[i + 1] && rest[i + 1] == t[i + 2];
        }
      }
      WellFormedIsSorted(rest);
      forall i, j | 0 <= i < j < |t| ensures t[i].hi < t[j].lo {
        if 0 < i {
          assert t[i] == rest[i - 1] && t[j] == rest[j - 1];
        } else if 1 < j {
          assert t[1] == rest[0] && t[j] == rest[j - 1];
        }
      }
    }
  }

  /** The comparator closure of `char_block`: where row `b` lies relative to `c`. */
  function Compare(b: Block, c: int): (o: Ordering)
    ensures o == Equal <==> Contains(b, c)
    ensures o == Less <==> b.hi < c
    ensures o == Greater <==> !Contains(b, c) && c <= b.hi
  {
    if b.lo <= c && c <= b.hi then Equal
    else if b.hi < c then Less
    else Greater
  }

  /** On a well-formed table the comparator splits the rows as a binary search
      needs: for any two rows, the earlier one is below `c` or the later one is
      above it. So the rows that compare `Less` come first, then at most one `Equal`,
      then the `Greater` ones. */
  lemma CompareConsistent(t: seq<Block>, c: int, i: nat, j: nat)
    requires WellFormed(t)
    requires i < j < |t|
    ensures Compare(t[i], c) == Less || Compare(t[j], c) == Greater
  {
    WellFormedIsSorted(t);
  }

  /** Binary search of `t[lo..hi]` with `Compare`. On a sorted table a hit is a row
      that contains `c`, and a miss names the point that splits the rows below `c`
      from the rows above it. */
  function Search(t: seq<Block>, c: int, lo: nat, hi: nat): (r: SearchResult)
    requires Sorted(t)
    requires lo <= hi <= |t|
    ensures r.Found? ==> lo <= r.index < hi && Contains(t[r.index], c)
    ensures r.NotFound? ==> lo <= r.insertAt <= hi
    ensures r.NotFound? ==> forall j :: lo <= j < r.insertAt ==> t[j].hi < c
    ensures r.NotFound? ==> forall j :: r.insertAt <= j < hi ==> c < t[j].lo
    decreases hi - lo
  {
    if lo == hi then NotFound(lo)
    else
      var mid := lo + (hi - lo) / 2;
      match Compare(t[mid], c)
      case Equal => Found(mid)
      case Less => Search(t, c, mid + 1, hi)
      case Greater => Search(t, c, lo, mid)
  }

  /** The body of `CharBlock for u32` over table `t`: run the binary search and keep
      only the index of a hit. On a well-formed table it returns the row that
      contains `c`, or `None` when no row does. */
  function Lookup(t: seq<Block>, c: u32): (r: Option<nat>)
    requires WellFormed(t)
    ensures r.Some? ==> r.value < |t| && Contains(t[r.value], c as int)
    ensures r.None? ==> forall i :: 0 <= i < |t| ==> !Contains(t[i], c as int)
  {
    WellFormedIsSorted(t);
    match Search(t, c as int, 0, |t|)
    case Found(idx) => Some(idx)
    case NotFound(_) => None
  }

  /** The reference definition: scan the rows from `k` on and return the first that contains `c`. */
  function ScanFrom(t: seq<Block>, c: int, k: nat): (r: Option<nat>)
    requires k <= |t|
    ensures r.Some? ==> k <= r.value < |t| && Contains(t[r.value], c)
    ensures r.Some? ==> forall j :: k <= j < r.value ==> !Contains(t[j], c)
    ensures r.None? ==> forall j :: k <= j < |t| ==> !Contains(t[j], c)
    decreases |t| - k
  {
    if k == |t| then None
    else if Contains(t[k], c) then Some(k)
    else ScanFrom(t, c, k + 1)
  }

  function Scan(t: seq<Block>, c: int): Option<nat> {
    ScanFrom(t, c, 0)
  }

  /** Joining two well-formed tables, the first ending below the start of the second,
      gives a well-formed table. */
  lemma WellFormedAppend(a: seq<Block>, b: seq<Block>)
    requires WellFormed(a) && WellFormed(b)
    requires |a| > 0 && |b| > 0 ==> a[|a| - 1].hi < b[0].lo
    ensures WellFormed(a + b)
  {
  }

  /** At most one row of a well-formed table contains any code point. */
  lemma Unique(t: seq<Block>, c: int, i: nat, j: nat)
    requires WellFormed(t)
    requires i < |t| && j < |t|
    requires Contains(t[i], c) && Contains(t[j], c)
    ensures i == j
  {
    WellFormedIsSorted(t);
  }

  /** The binary search returns exactly what the linear scan returns. */
  lemma LookupIsScan(t: seq<Block>, c: u32)
    requires WellFormed(t)
    ensures Lookup(t, c) == Scan(t, c as int)
  {
    var r, s := Lookup(t, c), Scan(t, c as int);
    if r.Some? && s.Some? {
      Unique(t, c as int, r.value, s.value);
    }
  }

  /** A hit is determined by `c` alone: any row that contains `c` is the one returned. */
  lemma LookupFindsContainingRow(t: seq<Block>, c: u32, i: nat)
    requires WellFormed(t)
    requires i < |t| && Contains(t[i], c as int)
    ensures Lookup(t, c) == Some(i)
  {
    var r := Lookup(t, c);
    if r.Some? {
      Unique(t, c as int, r.value, i);
    }
  }

  /** Larger code points resolve to the same row or a later one. */
  lemma LookupMonotone(t: seq<Block>, c1: u32, c2: u32)
    requires WellFormed(t)
    requires c1 <= c2
    requires Lookup(t, c1).Some? && Lookup(t, c2).Some?
    ensures Lookup(t, c1).value <= Lookup(t, c2).value
    ensures t[Lookup(t, c1).value].lo <= t[Lookup(t, c2).value].lo
  {
    WellFormedIsSorted(t);
  }

  /** A code point strictly between two consecutive rows belongs to no block. */
  lemma GapIsNone(t: seq<Block>, k: nat)
    requires WellFormed(t)
    requires k + 1 < |t|
    ensures forall c: u32 :: t[k].hi < c as int < t[k + 1].lo ==> Lookup(t, c) == None
  {
    WellFormedIsSorted(t);
  }

  /** A code point past the last row belongs to no block. */
  lemma AboveLastIsNone(t: seq<Block>, c: u32)
    requires WellFormed(t)
    requires |t| > 0 && t[|t| - 1].hi < c as int
    ensures Lookup(t, c) == None
  {
    WellFormedIsSorted(t);
  }

  /** No row of a well-formed table reaches into the gap after row `k`. */
  lemma RowsAvoidGap(t: seq<Block>, k: nat)
    requires WellFormed(t)
    requires k + 1 < |t|
    ensures forall i :: 0 <= i < |t| ==> t[i].hi <= t[k].hi || t[k + 1].lo <= t[i].lo
  {
    WellFormedIsSorted(t);
  }

  /** Every row of a well-formed table ends no later than the last row. */
  lemma RowsEndByLast(t: seq<Block>)
    requires WellFormed(t)
    requires |t| > 0
    ensures forall i :: 0 <= i < |t| ==> t[i].hi <= t[|t| - 1].hi
  {
    WellFormedIsSorted(t);
  }

  /** Every code point in `[lo, hi]` of row `k` resolves to row `k`. */
  lemma RowRangeResolves(t: seq<Block>, k: nat)
    requires WellFormed(t)
    requires k < |t|
    ensures forall c: u32 :: t[k].lo <= c as int <= t[k].hi ==> Lookup(t, c) == Some(k)
  {
    forall c: u32 | t[k].lo <= c as int <= t[k].hi ensures Lookup(t, c) == Some(k) {
      LookupFindsContainingRow(t, c, k);
    }
  }
}
