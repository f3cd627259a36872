# Unicode block lookup of gerb, in Dafny

gerb is a font editor. Its one piece of logic that stands apart from the GUI
toolkit is `src/unicode/mod.rs`. That file holds a fixed table, `UNICODE_BLOCKS`,
with one row per named Unicode block: an inclusive code-point range `[lo, hi]`, a
name and three informational columns. It also holds the `CharBlock` trait, which
maps a code point to the index of the block that contains it. The `u32`
implementation runs `binary_search_by` over the table. Its comparator closure
answers `Equal` when the row contains the code point, `Less` when the row ends
below it and `Greater` otherwise. It then keeps `Ok(idx)` as `Some(idx)` and turns
`Err(_)` into `None`. The `char` implementation converts the character to `u32`
and delegates.

The project has two modules:

- `block_index.dfy`, module `BlockIndex`. It defines the row type `Block` and the
  table invariant `WellFormed`: every row has `lo <= hi`, and each row ends
  below the start of the next. It defines the comparator `Compare` and the binary
  search `Search`, which returns `Found(index)` or `NotFound(insertion point)`
  like Rust's `Result<usize, usize>`. `Lookup` is the body of `CharBlock for u32`
  over any well-formed table, and `Scan` is a linear-scan reference definition.
  The lemmas prove that on every well-formed table the binary search is sound
  and complete and agrees with the scan. They also prove that the containing row is unique,
  that the result is monotone in the code point, and that gaps and values past
  the last row give `None`.
- `unicode_blocks.dfy`, module `UnicodeBlocks`. It holds all 317 rows of
  `UNICODE_BLOCKS`, with ranges and names as the source has them, and the two
  `CharBlock` functions over that table. Its lemmas prove that the table is well
  formed and stays within the Unicode codespace without touching the surrogates.
  They also prove that the surrogates, the gap after Phaistos Disc and every
  value past U+10FFFF have no block, and that U+0000..U+007F, U+4E00 and
  U+10FFFF land in Basic Latin, CJK Unified Ideographs and Supplementary Private
  Use Area-B.

The rows are written as 32 consecutive slices of at most 10 rows (`PART_00` to
`PART_31`), joined into four groups and then into `UNICODE_BLOCKS`. The joined
sequence is the source's row list in the source's order. The split only keeps
each well-formedness proof small.

Rust's `u32` is the newtype `u32`. Rust's `char` is Dafny's `char`: both range over
the Unicode scalar values (0 to 0x10FFFF without 0xD800..0xDFFF), so `ch as int`
is the same conversion as Rust's `self as u32`.

The table has 317 rows. The lookup returns the index of the containing row
(`Option<usize>`). Nothing checks a table at run time: that
the fixed table is well formed is proved once (`TableWellFormed`), and `Lookup`
requires it of any other table.

## Model

| member | source | states |
|---|---|---|
| `BlockIndex.CompareConsistent` | src/unicode/mod.rs:39-46 | the comparator closure (`Compare`) agrees with the table order: on a well-formed table, for any rows i < j, row i compares `Less` or row j compares `Greater`, so the rows split into `Less`, at most one `Equal`, then `Greater`, as `binary_search_by` requires |
| `BlockIndex.WellFormedIsSorted` | src/unicode/mod.rs:56-376 | if each row ends below the next row's start, every earlier row ends below every later row's start |
| `BlockIndex.Search` | src/unicode/mod.rs:39-46 | on a sorted table a hit is an index in the searched range whose row contains the code point; a miss is an insertion point p such that every row before p ends below the code point and every row from p on starts above it |
| `BlockIndex.Lookup` | src/unicode/mod.rs:37-51 | on a well-formed table, `Some(i)` means i is a valid index and row i contains the code point; `None` means no row contains it |
| `BlockIndex.LookupIsScan` | src/unicode/mod.rs:37-51 | for every code point the binary search returns exactly what a linear scan for the first containing row returns |
| `BlockIndex.Unique` | src/unicode/mod.rs:56-376 | in a well-formed table at most one row contains any code point |
| `BlockIndex.LookupFindsContainingRow` | src/unicode/mod.rs:39-50 | whenever row i contains the code point, the lookup returns `Some(i)`, whichever rows the search probed |
| `BlockIndex.LookupMonotone` | src/unicode/mod.rs:39-47 | if c1 <= c2 and both have a block, c1's index is at most c2's and c1's block starts no later than c2's |
| `BlockIndex.GapIsNone` | src/unicode/mod.rs:39-50 | a code point strictly between two consecutive rows gives `None` |
| `BlockIndex.AboveLastIsNone` | src/unicode/mod.rs:39-50 | a code point above the last row's end gives `None` |
| `BlockIndex.RowRangeResolves` | src/unicode/mod.rs:39-47 | every code point in row k's range gives `Some(k)` |
| `UnicodeBlocks.TableWellFormed` | src/unicode/mod.rs:56-376 | the 317 rows all have `lo <= hi` and are strictly ascending and non-overlapping |
| `UnicodeBlocks.TableInCodespace` | src/unicode/mod.rs:56-376 | every row ends at or below 0x10FFFF, and no row reaches into 0xD800..0xDFFF |
| `UnicodeBlocks.CharBlock` | src/unicode/mod.rs:37-51 | `Some(i)` means row i of the table contains the code point; `None` means no row does |
| `UnicodeBlocks.CharBlockOfChar` | src/unicode/mod.rs:31-35 | the same soundness and completeness for a character's scalar value |
| `UnicodeBlocks.CharBlockOfCharIsScan` | src/unicode/mod.rs:31-35 | the `char` lookup equals the `u32` lookup of the character's value, and both equal the linear scan |
| `UnicodeBlocks.BasicLatin` | src/unicode/mod.rs:57 | every value up to 0x7F gives index 0, and row 0 is named "Basic Latin" |
| `UnicodeBlocks.CjkUnifiedIdeographs` | src/unicode/mod.rs:177 | 0x4E00 gives index 120, the row named "CJK Unified Ideographs" |
| `UnicodeBlocks.LastCodePoint` | src/unicode/mod.rs:376 | 0x10FFFF gives index 316, the last of the 317 rows, named "Supplementary Private Use Area-B" |
| `UnicodeBlocks.SurrogatesHaveNoBlock` | src/unicode/mod.rs:205-209 | every value in 0xD800..0xDFFF gives `None`: they fall between Hangul Jamo Extended-B (row 148) and Private Use Area (row 149) |
| `UnicodeBlocks.PhaistosLycianGap` | src/unicode/mod.rs:226-227 | every value in 0x10200..0x1027F, between Phaistos Disc and Lycian, gives `None` |
| `UnicodeBlocks.BeyondCodespace` | src/unicode/mod.rs:376 | every `u32` above 0x10FFFF gives `None` |

## Left out

- The informational columns of `UNICODE_BLOCKS` (code-point count, assigned count, scripts): the lookup never reads them.
- Whether the table matches the Unicode Character Database: the rows are transcribed data, and the model checks only their shape and the facts above.
- The exact probe sequence of the standard library's `binary_search_by`: `Search` is a standard halving search, proved against the same contract.
- The `names` submodule (src/unicode/mod.rs:22): its file is not part of this model.
- src/views/glyphs_overview.rs: GTK widget code (properties, event callbacks, Cairo drawing, grid layout, tooltip text) that depends on the toolkit and on the `Glyph` type, which is not part of this model.
