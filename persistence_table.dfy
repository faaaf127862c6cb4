/**
 * The hole-filling persistence look-up table of the temporal depth filter
 * (src/proc/temporal-filter.cpp, `_persistence_lut`).
 *
 * One row per persistence (hole-filling) mode, one entry per 8-bit
 * per-pixel validity history: each bit of the history is one of eight frame
 * slots, set when the pixel held a valid reading in that slot's frame.
 * Which slot belongs to the current frame is decided by the smoothing
 * routine in temporal-filter.h, which is not part of this model. The bytes
 * are carried over verbatim, in the source's layout of sixteen lines of
 * sixteen entries per row.
 *
 * Rows 0, 1, 4, 7 and 8 hold all-or-nothing flags (0x00 or 0xFF) that
 * depend only on how many slots are set, so they are proved here against a
 * bit count, whichever slot is current. Rows 2, 3, 5 and 6 hold one mask
 * bit per slot and are kept as they are.
 */
module PersistenceTable {

  /** Number of persistence modes, one table row each (`PERSISTENCE_MAP_NUM`). */
  const PersistenceMapNum: nat := 9

  /** Entries per row: one for every 8-bit history value. */
  const LutSize: nat := 256

  /** One source line of the table: sixteen entries. */
  type Line = l: seq<bv8> | |l| == 16 witness [0, 0, 0, 0, 0, 0, 0, 0, 0, 0, 0, 0, 0, 0, 0, 0]

  /** A whole row of the table: one entry per history byte. */
  type Row = r: seq<bv8> | |r| == LutSize witness seq(256, _ => 0)

  /** The source lines of a row, one after the other. */
  function Flatten(lines: seq<Line>): (row: seq<bv8>)
    ensures |row| == 16 * |lines|
  {
    if |lines| == 0 then [] else lines[0] + Flatten(lines[1..])
  }

  /** Entry `k` of line `i` is entry `16 * i + k` of the row. */
  lemma {:induction false} FlattenIndex(lines: seq<Line>, i: nat, k: nat)
    requires i < |lines| && k < 16
    ensures Flatten(lines)[16 * i + k] == lines[i][k]
  {
    if i > 0 {
      FlattenIndex(lines[1..], i - 1, k);
    }
  }

  /** Mode 0, "Disabled" (temporal-filter.cpp lines 21-37), one const per
      source line of sixteen entries. */
  const Row0Line0: Line := [0x00, 0x00, 0x00, 0x00, 0x00, 0x00, 0x00, 0x00, 0x00, 0x00, 0x00, 0x00, 0x00, 0x00, 0x00, 0x00]
  const Row0Line1: Line := [0x00, 0x00, 0x00, 0x00, 0x00, 0x00, 0x00, 0x00, 0x00, 0x00, 0x00, 0x00, 0x00, 0x00, 0x00, 0x00]
  const Row0Line2: Line := [0x00, 0x00, 0x00, 0x00, 0x00, 0x00, 0x00, 0x00, 0x00, 0x00, 0x00, 0x00, 0x00, 0x00, 0x00, 0x00]
  const Row0Line3: Line := [0x00, 0x00, 0x00, 0x00, 0x00, 0x00, 0x00, 0x00, 0x00, 0x00, 0x00, 0x00, 0x00, 0x00, 0x00, 0x00]
  const Row0Line4: Line := [0x00, 0x00, 0x00, 0x00, 0x00, 0x00, 0x00, 0x00, 0x00, 0x00, 0x00, 0x00, 0x00, 0x00, 0x00, 0x00]
  const Row0Line5: Line := [0x00, 0x00, 0x00, 0x00, 0x00, 0x00, 0x00, 0x00, 0x00, 0x00, 0x00, 0x00, 0x00, 0x00, 0x00, 0x00]
  const Row0Line6: Line := [0x00, 0x00, 0x00, 0x00, 0x00, 0x00, 0x00, 0x00, 0x00, 0x00, 0x00, 0x00, 0x00, 0x00, 0x00, 0x00]
  const Row0Line7: Line := [0x00, 0x00, 0x00, 0x00, 0x00, 0x00, 0x00, 0x00, 0x00, 0x00, 0x00, 0x00, 0x00, 0x00, 0x00, 0x00]
  const Row0Line8: Line := [0x00, 0x00, 0x00, 0x00, 0x00, 0x00, 0x00, 0x00, 0x00, 0x00, 0x00, 0x00, 0x00, 0x00, 0x00, 0x00]
  const Row0Line9: Line := [0x00, 0x00, 0x00, 0x00, 0x00, 0x00, 0x00, 0x00, 0x00, 0x00, 0x00, 0x00, 0x00, 0x00, 0x00, 0x00]
  const Row0Line10: Line := [0x00, 0x00, 0x00, 0x00, 0x00, 0x00, 0x00, 0x00, 0x00, 0x00, 0x00, 0x00, 0x00, 0x00, 0x00, 0x00]
  const Row0Line11: Line := [0x00, 0x00, 0x00, 0x00, 0x00, 0x00, 0x00, 0x00, 0x00, 0x00, 0x00, 0x00, 0x00, 0x00, 0x00, 0x00]
  const Row0Line12: Line := [0x00, 0x00, 0x00, 0x00, 0x00, 0x00, 0x00, 0x00, 0x00, 0x00, 0x00, 0x00, 0x00, 0x00, 0x00, 0x00]
  const Row0Line13: Line := [0x00, 0x00, 0x00, 0x00, 0x00, 0x00, 0x00, 0x00, 0x00, 0x00, 0x00, 0x00, 0x00, 0x00, 0x00, 0x00]
  const Row0Line14: Line := [0x00, 0x00, 0x00, 0x00, 0x00, 0x00, 0x00, 0x00, 0x00, 0x00, 0x00, 0x00, 0x00, 0x00, 0x00, 0x00]
  const Row0Line15: Line := [0x00, 0x00, 0x00, 0x00, 0x00, 0x00, 0x00, 0x00, 0x00, 0x00, 0x00, 0x00, 0x00, 0x00, 0x00, 0x00]
  const Row0Lines: seq<Line> :=
    [ Row0Line0, Row0Line1, Row0Line2, Row0Line3, Row0Line4, Row0Line5, Row0Line6, Row0Line7,
      Row0Line8, Row0Line9, Row0Line10, Row0Line11, Row0Line12, Row0Line13, Row0Line14, Row0Line15 ]
  const Row0: Row := Flatten(Row0Lines)

  /** Mode 1, "Valid in 8/8" (temporal-filter.cpp lines 40-56), one const per
      source line of sixteen entries. */
  const Row1Line0: Line := [0x00, 0x00, 0x00, 0x00, 0x00, 0x00, 0x00, 0x00, 0x00, 0x00, 0x00, 0x00, 0x00, 0x00, 0x00, 0x00]
  const Row1Line1: Line := [0x00, 0x00, 0x00, 0x00, 0x00, 0x00, 0x00, 0x00, 0x00, 0x00, 0x00, 0x00, 0x00, 0x00, 0x00, 0x00]
  const Row1Line2: Line := [0x00, 0x00, 0x00, 0x00, 0x00, 0x00, 0x00, 0x00, 0x00, 0x00, 0x00, 0x00, 0x00, 0x00, 0x00, 0x00]
  const Row1Line3: Line := [0x00, 0x00, 0x00, 0x00, 0x00, 0x00, 0x00, 0x00, 0x00, 0x00, 0x00, 0x00, 0x00, 0x00, 0x00, 0x00]
  const Row1Line4: Line := [0x00, 0x00, 0x00, 0x00, 0x00, 0x00, 0x00, 0x00, 0x00, 0x00, 0x00, 0x00, 0x00, 0x00, 0x00, 0x00]
  const Row1Line5: Line := [0x00, 0x00, 0x00, 0x00, 0x00, 0x00, 0x00, 0x00, 0x00, 0x00, 0x00, 0x00, 0x00, 0x00, 0x00, 0x00]
  const Row1Line6: Line := [0x00, 0x00, 0x00, 0x00, 0x00, 0x00, 0x00, 0x00, 0x00, 0x00, 0x00, 0x00, 0x00, 0x00, 0x00, 0x00]
  const Row1Line7: Line := [0x00, 0x00, 0x00, 0x00, 0x00, 0x00, 0x00, 0x00, 0x00, 0x00, 0x00, 0x00, 0x00, 0x00, 0x00, 0x00]
  const Row1Line8: Line := [0x00, 0x00, 0x00, 0x00, 0x00, 0x00, 0x00, 0x00, 0x00, 0x00, 0x00, 0x00, 0x00, 0x00, 0x00, 0x00]
  const Row1Line9: Line := [0x00, 0x00, 0x00, 0x00, 0x00, 0x00, 0x00, 0x00, 0x00, 0x00, 0x00, 0x00, 0x00, 0x00, 0x00, 0x00]
  const Row1Line10: Line := [0x00, 0x00, 0x00, 0x00, 0x00, 0x00, 0x00, 0x00, 0x00, 0x00, 0x00, 0x00, 0x00, 0x00, 0x00, 0x00]
  const Row1Line11: Line := [0x00, 0x00, 0x00, 0x00, 0x00, 0x00, 0x00, 0x00, 0x00, 0x00, 0x00, 0x00, 0x00, 0x00, 0x00, 0x00]
  const Row1Line12: Line := [0x00, 0x00, 0x00, 0x00, 0x00, 0x00, 0x00, 0x00, 0x00, 0x00, 0x00, 0x00, 0x00, 0x00, 0x00, 0x00]
  const Row1Line13: Line := [0x00, 0x00, 0x00, 0x00, 0x00, 0x00, 0x00, 0x00, 0x00, 0x00, 0x00, 0x00, 0x00, 0x00, 0x00, 0x00]
  const Row1Line14: Line := [0x00, 0x00, 0x00, 0x00, 0x00, 0x00, 0x00, 0x00, 0x00, 0x00, 0x00, 0x00, 0x00, 0x00, 0x00, 0x00]
  const Row1Line15: Line := [0x00, 0x00, 0x00, 0x00, 0x00, 0x00, 0x00, 0x00, 0x00, 0x00, 0x00, 0x00, 0x00, 0x00, 0x00, 0xff]
  const Row1Lines: seq<Line> :=
    [ Row1Line0, Row1Line1, Row1Line2, Row1Line3, Row1Line4, Row1Line5, Row1Line6, Row1Line7,
      Row1Line8, Row1Line9, Row1Line10, Row1Line11, Row1Line12, Row1Line13, Row1Line14, Row1Line15 ]
  const Row1: Row := Flatten(Row1Lines)

  /** Mode 2, "Valid in 2/last 3" (temporal-filter.cpp lines 60-76), one const per
      source line of sixteen entries. */
  const Row2Line0: Line := [0x00, 0x00, 0x00, 0x0c, 0x00, 0x08, 0x18, 0x1c, 0x00, 0x00, 0x10, 0x1c, 0x30, 0x38, 0x38, 0x3c]
  const Row2Line1: Line := [0x00, 0x00, 0x00, 0x0c, 0x20, 0x28, 0x38, 0x3c, 0x60, 0x60, 0x70, 0x7c, 0x70, 0x78, 0x78, 0x7c]
  const Row2Line2: Line := [0x00, 0x00, 0x00, 0x0c, 0x00, 0x08, 0x18, 0x1c, 0x40, 0x40, 0x50, 0x5c, 0x70, 0x78, 0x78, 0x7c]
  const Row2Line3: Line := [0xc0, 0xc0, 0xc0, 0xcc, 0xe0, 0xe8, 0xf8, 0xfc, 0xe0, 0xe0, 0xf0, 0xfc, 0xf0, 0xf8, 0xf8, 0xfc]
  const Row2Line4: Line := [0x00, 0x02, 0x00, 0x0e, 0x00, 0x0a, 0x18, 0x1e, 0x00, 0x02, 0x10, 0x1e, 0x30, 0x3a, 0x38, 0x3e]
  const Row2Line5: Line := [0x80, 0x82, 0x80, 0x8e, 0xa0, 0xaa, 0xb8, 0xbe, 0xe0, 0xe2, 0xf0, 0xfe, 0xf0, 0xfa, 0xf8, 0xfe]
  const Row2Line6: Line := [0x81, 0x83, 0x81, 0x8f, 0x81, 0x8b, 0x99, 0x9f, 0xc1, 0xc3, 0xd1, 0xdf, 0xf1, 0xfb, 0xf9, 0xff]
  const Row2Line7: Line := [0xc1, 0xc3, 0xc1, 0xcf, 0xe1, 0xeb, 0xf9, 0xff, 0xe1, 0xe3, 0xf1, 0xff, 0xf1, 0xfb, 0xf9, 0xff]
  const Row2Line8: Line := [0x00, 0x06, 0x04, 0x0e, 0x00, 0x0e, 0x1c, 0x1e, 0x00, 0x06, 0x14, 0x1e, 0x30, 0x3e, 0x3c, 0x3e]
  const Row2Line9: Line := [0x00, 0x06, 0x04, 0x0e, 0x20, 0x2e, 0x3c, 0x3e, 0x60, 0x66, 0x74, 0x7e, 0x70, 0x7e, 0x7c, 0x7e]
  const Row2Line10: Line := [0x01, 0x07, 0x05, 0x0f, 0x01, 0x0f, 0x1d, 0x1f, 0x41, 0x47, 0x55, 0x5f, 0x71, 0x7f, 0x7d, 0x7f]
  const Row2Line11: Line := [0xc1, 0xc7, 0xc5, 0xcf, 0xe1, 0xef, 0xfd, 0xff, 0xe1, 0xe7, 0xf5, 0xff, 0xf1, 0xff, 0xfd, 0xff]
  const Row2Line12: Line := [0x03, 0x07, 0x07, 0x0f, 0x03, 0x0f, 0x1f, 0x1f, 0x03, 0x07, 0x17, 0x1f, 0x33, 0x3f, 0x3f, 0x3f]
  const Row2Line13: Line := [0x83, 0x87, 0x87, 0x8f, 0xa3, 0xaf, 0xbf, 0xbf, 0xe3, 0xe7, 0xf7, 0xff, 0xf3, 0xff, 0xff, 0xff]
  const Row2Line14: Line := [0x83, 0x87, 0x87, 0x8f, 0x83, 0x8f, 0x9f, 0x9f, 0xc3, 0xc7, 0xd7, 0xdf, 0xf3, 0xff, 0xff, 0xff]
  const Row2Line15: Line := [0xc3, 0xc7, 0xc7, 0xcf, 0xe3, 0xef, 0xff, 0xff, 0xe3, 0xe7, 0xf7, 0xff, 0xf3, 0xff, 0xff, 0xff]
  const Row2Lines: seq<Line> :=
    [ Row2Line0, Row2Line1, Row2Line2, Row2Line3, Row2Line4, Row2Line5, Row2Line6, Row2Line7,
      Row2Line8, Row2Line9, Row2Line10, Row2Line11, Row2Line12, Row2Line13, Row2Line14, Row2Line15 ]
  const Row2: Row := Flatten(Row2Lines)

  /** Mode 3, "Valid in 2/last 4" (temporal-filter.cpp lines 80-96), one const per
      source line of sixteen entries. */
  const Row3Line0: Line := [0x00, 0x00, 0x00, 0x1c, 0x00, 0x18, 0x38, 0x3c, 0x00, 0x10, 0x30, 0x3c, 0x70, 0x78, 0x78, 0x7c]
  const Row3Line1: Line := [0x00, 0x00, 0x20, 0x3c, 0x60, 0x78, 0x78, 0x7c, 0xe0, 0xf0, 0xf0, 0xfc, 0xf0, 0xf8, 0xf8, 0xfc]
  const Row3Line2: Line := [0x00, 0x02, 0x00, 0x1e, 0x40, 0x5a, 0x78, 0x7e, 0xc0, 0xd2, 0xf0, 0xfe, 0xf0, 0xfa, 0xf8, 0xfe]
  const Row3Line3: Line := [0xc1, 0xc3, 0xe1, 0xff, 0xe1, 0xfb, 0xf9, 0xff, 0xe1, 0xf3, 0xf1, 0xff, 0xf1, 0xfb, 0xf9, 0xff]
  const Row3Line4: Line := [0x00, 0x06, 0x04, 0x1e, 0x00, 0x1e, 0x3c, 0x3e, 0x80, 0x96, 0xb4, 0xbe, 0xf0, 0xfe, 0xfc, 0xfe]
  const Row3Line5: Line := [0x81, 0x87, 0xa5, 0xbf, 0xe1, 0xff, 0xfd, 0xff, 0xe1, 0xf7, 0xf5, 0xff, 0xf1, 0xff, 0xfd, 0xff]
  const Row3Line6: Line := [0x83, 0x87, 0x87, 0x9f, 0xc3, 0xdf, 0xff, 0xff, 0xc3, 0xd7, 0xf7, 0xff, 0xf3, 0xff, 0xff, 0xff]
  const Row3Line7: Line := [0xc3, 0xc7, 0xe7, 0xff, 0xe3, 0xff, 0xff, 0xff, 0xe3, 0xf7, 0xf7, 0xff, 0xf3, 0xff, 0xff, 0xff]
  const Row3Line8: Line := [0x00, 0x0e, 0x0c, 0x1e, 0x08, 0x1e, 0x3c, 0x3e, 0x00, 0x1e, 0x3c, 0x3e, 0x78, 0x7e, 0x7c, 0x7e]
  const Row3Line9: Line := [0x01, 0x0f, 0x2d, 0x3f, 0x69, 0x7f, 0x7d, 0x7f, 0xe1, 0xff, 0xfd, 0xff, 0xf9, 0xff, 0xfd, 0xff]
  const Row3Line10: Line := [0x03, 0x0f, 0x0f, 0x1f, 0x4b, 0x5f, 0x7f, 0x7f, 0xc3, 0xdf, 0xff, 0xff, 0xfb, 0xff, 0xff, 0xff]
  const Row3Line11: Line := [0xc3, 0xcf, 0xef, 0xff, 0xeb, 0xff, 0xff, 0xff, 0xe3, 0xff, 0xff, 0xff, 0xfb, 0xff, 0xff, 0xff]
  const Row3Line12: Line := [0x07, 0x0f, 0x0f, 0x1f, 0x0f, 0x1f, 0x3f, 0x3f, 0x87, 0x9f, 0xbf, 0xbf, 0xff, 0xff, 0xff, 0xff]
  const Row3Line13: Line := [0x87, 0x8f, 0xaf, 0xbf, 0xef, 0xff, 0xff, 0xff, 0xe7, 0xff, 0xff, 0xff, 0xff, 0xff, 0xff, 0xff]
  const Row3Line14: Line := [0x87, 0x8f, 0x8f, 0x9f, 0xcf, 0xdf, 0xff, 0xff, 0xc7, 0xdf, 0xff, 0xff, 0xff, 0xff, 0xff, 0xff]
  const Row3Line15: Line := [0xc7, 0xcf, 0xef, 0xff, 0xef, 0xff, 0xff, 0xff, 0xe7, 0xff, 0xff, 0xff, 0xff, 0xff, 0xff, 0xff]
  const Row3Lines: seq<Line> :=
    [ Row3Line0, Row3Line1, Row3Line2, Row3Line3, Row3Line4, Row3Line5, Row3Line6, Row3Line7,
      Row3Line8, Row3Line9, Row3Line10, Row3Line11, Row3Line12, Row3Line13, Row3Line14, Row3Line15 ]
  const Row3: Row := Flatten(Row3Lines)

  /** Mode 4, "Valid in 2/8" (temporal-filter.cpp lines 99-115), one const per
      source line of sixteen entries. */
  const Row4Line0: Line := [0x00, 0x00, 0x00, 0xff, 0x00, 0xff, 0xff, 0xff, 0x00, 0xff, 0xff, 0xff, 0xff, 0xff, 0xff, 0xff]
  const Row4Line1: Line := [0x00, 0xff, 0xff, 0xff, 0xff, 0xff, 0xff, 0xff, 0xff, 0xff, 0xff, 0xff, 0xff, 0xff, 0xff, 0xff]
  const Row4Line2: Line := [0x00, 0xff, 0xff, 0xff, 0xff, 0xff, 0xff, 0xff, 0xff, 0xff, 0xff, 0xff, 0xff, 0xff, 0xff, 0xff]
  const Row4Line3: Line := [0xff, 0xff, 0xff, 0xff, 0xff, 0xff, 0xff, 0xff, 0xff, 0xff, 0xff, 0xff, 0xff, 0xff, 0xff, 0xff]
  const Row4Line4: Line := [0x00, 0xff, 0xff, 0xff, 0xff, 0xff, 0xff, 0xff, 0xff, 0xff, 0xff, 0xff, 0xff, 0xff, 0xff, 0xff]
  const Row4Line5: Line := [0xff, 0xff, 0xff, 0xff, 0xff, 0xff, 0xff, 0xff, 0xff, 0xff, 0xff, 0xff, 0xff, 0xff, 0xff, 0xff]
  const Row4Line6: Line := [0xff, 0xff, 0xff, 0xff, 0xff, 0xff, 0xff, 0xff, 0xff, 0xff, 0xff, 0xff, 0xff, 0xff, 0xff, 0xff]
  const Row4Line7: Line := [0xff, 0xff, 0xff, 0xff, 0xff, 0xff, 0xff, 0xff, 0xff, 0xff, 0xff, 0xff, 0xff, 0xff, 0xff, 0xff]
  const Row4Line8: Line := [0x00, 0xff, 0xff, 0xff, 0xff, 0xff, 0xff, 0xff, 0xff, 0xff, 0xff, 0xff, 0xff, 0xff, 0xff, 0xff]
  const Row4Line9: Line := [0xff, 0xff, 0xff, 0xff, 0xff, 0xff, 0xff, 0xff, 0xff, 0xff, 0xff, 0xff, 0xff, 0xff, 0xff, 0xff]
  const Row4Line10: Line := [0xff, 0xff, 0xff, 0xff, 0xff, 0xff, 0xff, 0xff, 0xff, 0xff, 0xff, 0xff, 0xff, 0xff, 0xff, 0xff]
  const Row4Line11: Line := [0xff, 0xff, 0xff, 0xff, 0xff, 0xff, 0xff, 0xff, 0xff, 0xff, 0xff, 0xff, 0xff, 0xff, 0xff, 0xff]
  const Row4Line12: Line := [0xff, 0xff, 0xff, 0xff, 0xff, 0xff, 0xff, 0xff, 0xff, 0xff, 0xff, 0xff, 0xff, 0xff, 0xff, 0xff]
  const Row4Line13: Line := [0xff, 0xff, 0xff, 0xff, 0xff, 0xff, 0xff, 0xff, 0xff, 0xff, 0xff, 0xff, 0xff, 0xff, 0xff, 0xff]
  const Row4Line14: Line := [0xff, 0xff, 0xff, 0xff, 0xff, 0xff, 0xff, 0xff, 0xff, 0xff, 0xff, 0xff, 0xff, 0xff, 0xff, 0xff]
  const Row4Line15: Line := [0xff, 0xff, 0xff, 0xff, 0xff, 0xff, 0xff, 0xff, 0xff, 0xff, 0xff, 0xff, 0xff, 0xff, 0xff, 0xff]
  const Row4Lines: seq<Line> :=
    [ Row4Line0, Row4Line1, Row4Line2, Row4Line3, Row4Line4, Row4Line5, Row4Line6, Row4Line7,
      Row4Line8, Row4Line9, Row4Line10, Row4Line11, Row4Line12, Row4Line13, Row4Line14, Row4Line15 ]
  const Row4: Row := Flatten(Row4Lines)

  /** Mode 5, "Valid in 1/last 2" (temporal-filter.cpp lines 118-134), one const per
      source line of sixteen entries. */
  const Row5Line0: Line := [0x00, 0x06, 0x0c, 0x0e, 0x18, 0x1e, 0x1c, 0x1e, 0x30, 0x36, 0x3c, 0x3e, 0x38, 0x3e, 0x3c, 0x3e]
  const Row5Line1: Line := [0x60, 0x66, 0x6c, 0x6e, 0x78, 0x7e, 0x7c, 0x7e, 0x70, 0x76, 0x7c, 0x7e, 0x78, 0x7e, 0x7c, 0x7e]
  const Row5Line2: Line := [0xc0, 0xc6, 0xcc, 0xce, 0xd8, 0xde, 0xdc, 0xde, 0xf0, 0xf6, 0xfc, 0xfe, 0xf8, 0xfe, 0xfc, 0xfe]
  const Row5Line3: Line := [0xe0, 0xe6, 0xec, 0xee, 0xf8, 0xfe, 0xfc, 0xfe, 0xf0, 0xf6, 0xfc, 0xfe, 0xf8, 0xfe, 0xfc, 0xfe]
  const Row5Line4: Line := [0x81, 0x87, 0x8d, 0x8f, 0x99, 0x9f, 0x9d, 0x9f, 0xb1, 0xb7, 0xbd, 0xbf, 0xb9, 0xbf, 0xbd, 0xbf]
  const Row5Line5: Line := [0xe1, 0xe7, 0xed, 0xef, 0xf9, 0xff, 0xfd, 0xff, 0xf1, 0xf7, 0xfd, 0xff, 0xf9, 0xff, 0xfd, 0xff]
  const Row5Line6: Line := [0xc1, 0xc7, 0xcd, 0xcf, 0xd9, 0xdf, 0xdd, 0xdf, 0xf1, 0xf7, 0xfd, 0xff, 0xf9, 0xff, 0xfd, 0xff]
  const Row5Line7: Line := [0xe1, 0xe7, 0xed, 0xef, 0xf9, 0xff, 0xfd, 0xff, 0xf1, 0xf7, 0xfd, 0xff, 0xf9, 0xff, 0xfd, 0xff]
  const Row5Line8: Line := [0x03, 0x07, 0x0f, 0x0f, 0x1b, 0x1f, 0x1f, 0x1f, 0x33, 0x37, 0x3f, 0x3f, 0x3b, 0x3f, 0x3f, 0x3f]
  const Row5Line9: Line := [0x63, 0x67, 0x6f, 0x6f, 0x7b, 0x7f, 0x7f, 0x7f, 0x73, 0x77, 0x7f, 0x7f, 0x7b, 0x7f, 0x7f, 0x7f]
  const Row5Line10: Line := [0xc3, 0xc7, 0xcf, 0xcf, 0xdb, 0xdf, 0xdf, 0xdf, 0xf3, 0xf7, 0xff, 0xff, 0xfb, 0xff, 0xff, 0xff]
  const Row5Line11: Line := [0xe3, 0xe7, 0xef, 0xef, 0xfb, 0xff, 0xff, 0xff, 0xf3, 0xf7, 0xff, 0xff, 0xfb, 0xff, 0xff, 0xff]
  const Row5Line12: Line := [0x83, 0x87, 0x8f, 0x8f, 0x9b, 0x9f, 0x9f, 0x9f, 0xb3, 0xb7, 0xbf, 0xbf, 0xbb, 0xbf, 0xbf, 0xbf]
  const Row5Line13: Line := [0xe3, 0xe7, 0xef, 0xef, 0xfb, 0xff, 0xff, 0xff, 0xf3, 0xf7, 0xff, 0xff, 0xfb, 0xff, 0xff, 0xff]
  const Row5Line14: Line := [0xc3, 0xc7, 0xcf, 0xcf, 0xdb, 0xdf, 0xdf, 0xdf, 0xf3, 0xf7, 0xff, 0xff, 0xfb, 0xff, 0xff, 0xff]
  const Row5Line15: Line := [0xe3, 0xe7, 0xef, 0xef, 0xfb, 0xff, 0xff, 0xff, 0xf3, 0xf7, 0xff, 0xff, 0xfb, 0xff, 0xff, 0xff]
  const Row5Lines: seq<Line> :=
    [ Row5Line0, Row5Line1, Row5Line2, Row5Line3, Row5Line4, Row5Line5, Row5Line6, Row5Line7,
      Row5Line8, Row5Line9, Row5Line10, Row5Line11, Row5Line12, Row5Line13, Row5Line14, Row5Line15 ]
  const Row5: Row := Flatten(Row5Lines)

  /** Mode 6, "Valid in 1/last 5" (temporal-filter.cpp lines 137-153), one const per
      source line of sixteen entries. */
  const Row6Line0: Line := [0x00, 0x3e, 0x7c, 0x7e, 0xf8, 0xfe, 0xfc, 0xfe, 0xf1, 0xff, 0xfd, 0xff, 0xf9, 0xff, 0xfd, 0xff]
  const Row6Line1: Line := [0xe3, 0xff, 0xff, 0xff, 0xfb, 0xff, 0xff, 0xff, 0xf3, 0xff, 0xff, 0xff, 0xfb, 0xff, 0xff, 0xff]
  const Row6Line2: Line := [0xc7, 0xff, 0xff, 0xff, 0xff, 0xff, 0xff, 0xff, 0xf7, 0xff, 0xff, 0xff, 0xff, 0xff, 0xff, 0xff]
  const Row6Line3: Line := [0xe7, 0xff, 0xff, 0xff, 0xff, 0xff, 0xff, 0xff, 0xf7, 0xff, 0xff, 0xff, 0xff, 0xff, 0xff, 0xff]
  const Row6Line4: Line := [0x8f, 0xbf, 0xff, 0xff, 0xff, 0xff, 0xff, 0xff, 0xff, 0xff, 0xff, 0xff, 0xff, 0xff, 0xff, 0xff]
  const Row6Line5: Line := [0xef, 0xff, 0xff, 0xff, 0xff, 0xff, 0xff, 0xff, 0xff, 0xff, 0xff, 0xff, 0xff, 0xff, 0xff, 0xff]
  const Row6Line6: Line := [0xcf, 0xff, 0xff, 0xff, 0xff, 0xff, 0xff, 0xff, 0xff, 0xff, 0xff, 0xff, 0xff, 0xff, 0xff, 0xff]
  const Row6Line7: Line := [0xef, 0xff, 0xff, 0xff, 0xff, 0xff, 0xff, 0xff, 0xff, 0xff, 0xff, 0xff, 0xff, 0xff, 0xff, 0xff]
  const Row6Line8: Line := [0x1f, 0x3f, 0x7f, 0x7f, 0xff, 0xff, 0xff, 0xff, 0xff, 0xff, 0xff, 0xff, 0xff, 0xff, 0xff, 0xff]
  const Row6Line9: Line := [0xff, 0xff, 0xff, 0xff, 0xff, 0xff, 0xff, 0xff, 0xff, 0xff, 0xff, 0xff, 0xff, 0xff, 0xff, 0xff]
  const Row6Line10: Line := [0xdf, 0xff, 0xff, 0xff, 0xff, 0xff, 0xff, 0xff, 0xff, 0xff, 0xff, 0xff, 0xff, 0xff, 0xff, 0xff]
  const Row6Line11: Line := [0xff, 0xff, 0xff, 0xff, 0xff, 0xff, 0xff, 0xff, 0xff, 0xff, 0xff, 0xff, 0xff, 0xff, 0xff, 0xff]
  const Row6Line12: Line := [0x9f, 0xbf, 0xff, 0xff, 0xff, 0xff, 0xff, 0xff, 0xff, 0xff, 0xff, 0xff, 0xff, 0xff, 0xff, 0xff]
  const Row6Line13: Line := [0xff, 0xff, 0xff, 0xff, 0xff, 0xff, 0xff, 0xff, 0xff, 0xff, 0xff, 0xff, 0xff, 0xff, 0xff, 0xff]
  const Row6Line14: Line := [0xdf, 0xff, 0xff, 0xff, 0xff, 0xff, 0xff, 0xff, 0xff, 0xff, 0xff, 0xff, 0xff, 0xff, 0xff, 0xff]
  const Row6Line15: Line := [0xff, 0xff, 0xff, 0xff, 0xff, 0xff, 0xff, 0xff, 0xff, 0xff, 0xff, 0xff, 0xff, 0xff, 0xff, 0xff]
  const Row6Lines: seq<Line> :=
    [ Row6Line0, Row6Line1, Row6Line2, Row6Line3, Row6Line4, Row6Line5, Row6Line6, Row6Line7,
      Row6Line8, Row6Line9, Row6Line10, Row6Line11, Row6Line12, Row6Line13, Row6Line14, Row6Line15 ]
  const Row6: Row := Flatten(Row6Lines)

  /** Mode 7, "Valid in 1/8" (temporal-filter.cpp lines 156-172), one const per
      source line of sixteen entries. */
  const Row7Line0: Line := [0x00, 0xff, 0xff, 0xff, 0xff, 0xff, 0xff, 0xff, 0xff, 0xff, 0xff, 0xff, 0xff, 0xff, 0xff, 0xff]
  const Row7Line1: Line := [0xff, 0xff, 0xff, 0xff, 0xff, 0xff, 0xff, 0xff, 0xff, 0xff, 0xff, 0xff, 0xff, 0xff, 0xff, 0xff]
  const Row7Line2: Line := [0xff, 0xff, 0xff, 0xff, 0xff, 0xff, 0xff, 0xff, 0xff, 0xff, 0xff, 0xff, 0xff, 0xff, 0xff, 0xff]
  const Row7Line3: Line := [0xff, 0xff, 0xff, 0xff, 0xff, 0xff, 0xff, 0xff, 0xff, 0xff, 0xff, 0xff, 0xff, 0xff, 0xff, 0xff]
  const Row7Line4: Line := [0xff, 0xff, 0xff, 0xff, 0xff, 0xff, 0xff, 0xff, 0xff, 0xff, 0xff, 0xff, 0xff, 0xff, 0xff, 0xff]
  const Row7Line5: Line := [0xff, 0xff, 0xff, 0xff, 0xff, 0xff, 0xff, 0xff, 0xff, 0xff, 0xff, 0xff, 0xff, 0xff, 0xff, 0xff]
  const Row7Line6: Line := [0xff, 0xff, 0xff, 0xff, 0xff, 0xff, 0xff, 0xff, 0xff, 0xff, 0xff, 0xff, 0xff, 0xff, 0xff, 0xff]
  const Row7Line7: Line := [0xff, 0xff, 0xff, 0xff, 0xff, 0xff, 0xff, 0xff, 0xff, 0xff, 0xff, 0xff, 0xff, 0xff, 0xff, 0xff]
  const Row7Line8: Line := [0xff, 0xff, 0xff, 0xff, 0xff, 0xff, 0xff, 0xff, 0xff, 0xff, 0xff, 0xff, 0xff, 0xff, 0xff, 0xff]
  const Row7Line9: Line := [0xff, 0xff, 0xff, 0xff, 0xff, 0xff, 0xff, 0xff, 0xff, 0xff, 0xff, 0xff, 0xff, 0xff, 0xff, 0xff]
  const Row7Line10: Line := [0xff, 0xff, 0xff, 0xff, 0xff, 0xff, 0xff, 0xff, 0xff, 0xff, 0xff, 0xff, 0xff, 0xff, 0xff, 0xff]
  const Row7Line11: Line := [0xff, 0xff, 0xff, 0xff, 0xff, 0xff, 0xff, 0xff, 0xff, 0xff, 0xff, 0xff, 0xff, 0xff, 0xff, 0xff]
  const Row7Line12: Line := [0xff, 0xff, 0xff, 0xff, 0xff, 0xff, 0xff, 0xff, 0xff, 0xff, 0xff, 0xff, 0xff, 0xff, 0xff, 0xff]
  const Row7Line13: Line := [0xff, 0xff, 0xff, 0xff, 0xff, 0xff, 0xff, 0xff, 0xff, 0xff, 0xff, 0xff, 0xff, 0xff, 0xff, 0xff]
  const Row7Line14: Line := [0xff, 0xff, 0xff, 0xff, 0xff, 0xff, 0xff, 0xff, 0xff, 0xff, 0xff, 0xff, 0xff, 0xff, 0xff, 0xff]
  const Row7Line15: Line := [0xff, 0xff, 0xff, 0xff, 0xff, 0xff, 0xff, 0xff, 0xff, 0xff, 0xff, 0xff, 0xff, 0xff, 0xff, 0xff]
  const Row7Lines: seq<Line> :=
    [ Row7Line0, Row7Line1, Row7Line2, Row7Line3, Row7Line4, Row7Line5, Row7Line6, Row7Line7,
      Row7Line8, Row7Line9, Row7Line10, Row7Line11, Row7Line12, Row7Line13, Row7Line14, Row7Line15 ]
  const Row7: Row := Flatten(Row7Lines)

  /** Mode 8, "Valid in previous" (temporal-filter.cpp lines 175-191), one const per
      source line of sixteen entries. */
  const Row8Line0: Line := [0xff, 0xff, 0xff, 0xff, 0xff, 0xff, 0xff, 0xff, 0xff, 0xff, 0xff, 0xff, 0xff, 0xff, 0xff, 0xff]
  const Row8Line1: Line := [0xff, 0xff, 0xff, 0xff, 0xff, 0xff, 0xff, 0xff, 0xff, 0xff, 0xff, 0xff, 0xff, 0xff, 0xff, 0xff]
  const Row8Line2: Line := [0xff, 0xff, 0xff, 0xff, 0xff, 0xff, 0xff, 0xff, 0xff, 0xff, 0xff, 0xff, 0xff, 0xff, 0xff, 0xff]
  const Row8Line3: Line := [0xff, 0xff, 0xff, 0xff, 0xff, 0xff, 0xff, 0xff, 0xff, 0xff, 0xff, 0xff, 0xff, 0xff, 0xff, 0xff]
  const Row8Line4: Line := [0xff, 0xff, 0xff, 0xff, 0xff, 0xff, 0xff, 0xff, 0xff, 0xff, 0xff, 0xff, 0xff, 0xff, 0xff, 0xff]
  const Row8Line5: Line := [0xff, 0xff, 0xff, 0xff, 0xff, 0xff, 0xff, 0xff, 0xff, 0xff, 0xff, 0xff, 0xff, 0xff, 0xff, 0xff]
  const Row8Line6: Line := [0xff, 0xff, 0xff, 0xff, 0xff, 0xff, 0xff, 0xff, 0xff, 0xff, 0xff, 0xff, 0xff, 0xff, 0xff, 0xff]
  const Row8Line7: Line := [0xff, 0xff, 0xff, 0xff, 0xff, 0xff, 0xff, 0xff, 0xff, 0xff, 0xff, 0xff, 0xff, 0xff, 0xff, 0xff]
  const Row8Line8: Line := [0xff, 0xff, 0xff, 0xff, 0xff, 0xff, 0xff, 0xff, 0xff, 0xff, 0xff, 0xff, 0xff, 0xff, 0xff, 0xff]
  const Row8Line9: Line := [0xff, 0xff, 0xff, 0xff, 0xff, 0xff, 0xff, 0xff, 0xff, 0xff, 0xff, 0xff, 0xff, 0xff, 0xff, 0xff]
  const Row8Line10: Line := [0xff, 0xff, 0xff, 0xff, 0xff, 0xff, 0xff, 0xff, 0xff, 0xff, 0xff, 0xff, 0xff, 0xff, 0xff, 0xff]
  const Row8Line11: Line := [0xff, 0xff, 0xff, 0xff, 0xff, 0xff, 0xff, 0xff, 0xff, 0xff, 0xff, 0xff, 0xff, 0xff, 0xff, 0xff]
  const Row8Line12: Line := [0xff, 0xff, 0xff, 0xff, 0xff, 0xff, 0xff, 0xff, 0xff, 0xff, 0xff, 0xff, 0xff, 0xff, 0xff, 0xff]
  const Row8Line13: Line := [0xff, 0xff, 0xff, 0xff, 0xff, 0xff, 0xff, 0xff, 0xff, 0xff, 0xff, 0xff, 0xff, 0xff, 0xff, 0xff]
  const Row8Line14: Line := [0xff, 0xff, 0xff, 0xff, 0xff, 0xff, 0xff, 0xff, 0xff, 0xff, 0xff, 0xff, 0xff, 0xff, 0xff, 0xff]
  const Row8Line15: Line := [0xff, 0xff, 0xff, 0xff, 0xff, 0xff, 0xff, 0xff, 0xff, 0xff, 0xff, 0xff, 0xff, 0xff, 0xff, 0xff]
  const Row8Lines: seq<Line> :=
    [ Row8Line0, Row8Line1, Row8Line2, Row8Line3, Row8Line4, Row8Line5, Row8Line6, Row8Line7,
      Row8Line8, Row8Line9, Row8Line10, Row8Line11, Row8Line12, Row8Line13, Row8Line14, Row8Line15 ]
  const Row8: Row := Flatten(Row8Lines)

  /** `_persistence_lut[mode]`: the decision table of persistence mode `mode`. */
  function PersistenceLut(mode: nat): Row
    requires mode < PersistenceMapNum
  {
    if mode == 0 then Row0
    else if mode == 1 then Row1
    else if mode == 2 then Row2
    else if mode == 3 then Row3
    else if mode == 4 then Row4
    else if mode == 5 then Row5
    else if mode == 6 then Row6
    else if mode == 7 then Row7
    else Row8
  }

  /** The sixteen source lines of row `mode`. */
  function SourceLines(mode: nat): (lines: seq<Line>)
    requires mode < PersistenceMapNum
    ensures |lines| == 16
  {
    if mode == 0 then Row0Lines
    else if mode == 1 then Row1Lines
    else if mode == 2 then Row2Lines
    else if mode == 3 then Row3Lines
    else if mode == 4 then Row4Lines
    else if mode == 5 then Row5Lines
    else if mode == 6 then Row6Lines
    else if mode == 7 then Row7Lines
    else Row8Lines
  }

  /** Indexing the table: entry `16 * i + k` of `_persistence_lut[mode]` is
      entry `k` of the `i`-th source line of that row. */
  lemma PersistenceLutLayout(mode: nat, i: nat, k: nat)
    requires mode < PersistenceMapNum && i < 16 && k < 16
    ensures PersistenceLut(mode)[16 * i + k] == SourceLines(mode)[i][k]
  {
    FlattenIndex(SourceLines(mode), i, k);
  }

  // ---------------------------------------------------------------------
  // Counting valid frames in a history byte
  // ---------------------------------------------------------------------

  /** Number of set bits of `h`: in a history byte, the number of frame
      slots in which the pixel held a valid reading. */
  function BitCount(h: nat): (r: nat)
    ensures r == 0 <==> h == 0
  {
    if h == 0 then 0 else h % 2 + BitCount(h / 2)
  }

  function Pow2(w: nat): (p: nat)
    ensures p >= 1
  {
    if w == 0 then 1 else 2 * Pow2(w - 1)
  }

  /** A number below 2^w has at most w set bits, and has exactly w of them
      only when all w of its low bits are set. */
  lemma {:induction false} BitCountBelow(h: nat, w: nat)
    requires h < Pow2(w)
    ensures BitCount(h) <= w
    ensures BitCount(h) == w <==> h == Pow2(w) - 1
  {
    if w > 0 {
      BitCountBelow(h / 2, w - 1);
    }
  }

  /** For a history byte, "valid in all eight frame slots" means
      the byte is 0xFF. */
  lemma AllEightValid(h: nat)
    requires h < LutSize
    ensures BitCount(h) <= 8
    ensures BitCount(h) == 8 <==> h == 255
  {
    assert Pow2(8) == 256;
    BitCountBelow(h, 8);
  }

  predicate PowerOfTwo(n: nat)
  {
    n == 1 || (n > 1 && n % 2 == 0 && PowerOfTwo(n / 2))
  }

  /** At most one set bit is the same as zero or a power of two. */
  lemma {:induction false} AtMostOneBit(n: nat)
    ensures BitCount(n) < 2 <==> n == 0 || PowerOfTwo(n)
  {
    if n > 1 {
      AtMostOneBit(n / 2);
    }
  }

  /** The powers of two below 256 are exactly the single-bit bytes. */
  lemma {:induction false} PowersOfTwoBelow256(n: nat)
    requires n < LutSize
    ensures PowerOfTwo(n) <==> n in {1, 2, 4, 8, 16, 32, 64, 128}
  {
    if n > 1 && n % 2 == 0 {
      PowersOfTwoBelow256(n / 2);
    }
  }

  /** The history bytes with fewer than two valid frames. */
  const FewerThanTwoValid: set<nat> := {0, 1, 2, 4, 8, 16, 32, 64, 128}

  lemma FewerThanTwoValidBytes(h: nat)
    requires h < LutSize
    ensures BitCount(h) < 2 <==> h in FewerThanTwoValid
  {
    AtMostOneBit(h);
    PowersOfTwoBelow256(h);
  }

  // ---------------------------------------------------------------------
  // The all-or-nothing rows
  // ---------------------------------------------------------------------

  /** The decision byte of an all-or-nothing row: 0xFF where the history is
      credible, 0x00 where it is not. */
  function Flag(credible: bool): bv8
  {
    if credible then 0xFF else 0x00
  }

  /** The rule each all-or-nothing row encodes, by entry index. */
  function FlagRule(mode: nat, h: nat): bool
  {
    if mode == 1 then h == 255
    else if mode == 4 then h !in FewerThanTwoValid
    else if mode == 7 then h != 0
    else mode == 8
  }

  /** The entries of `part`, which starts at entry `base` of its row, follow
      the flag rule of `mode`. */
  ghost predicate Follows(part: seq<bv8>, mode: nat, base: nat)
  {
    forall j :: 0 <= j < |part| ==> part[j] == Flag(FlagRule(mode, base + j))
  }

  /** A row whose every line follows the flag rule follows it throughout. */
  lemma FlattenFollows(lines: seq<Line>, mode: nat)
    requires forall i :: 0 <= i < |lines| ==> Follows(lines[i], mode, 16 * i)
    ensures Follows(Flatten(lines), mode, 0)
  {
    forall h | 0 <= h < |Flatten(lines)|
      ensures Flatten(lines)[h] == Flag(FlagRule(mode, h))
    {
      FlattenIndex(lines, h / 16, h % 16);
      assert Follows(lines[h / 16], mode, 16 * (h / 16));
    }
  }

  lemma Row0LinesFollow()
    ensures forall i :: 0 <= i < |Row0Lines| ==> Follows(Row0Lines[i], 0, 16 * i)
  {
    forall i | 0 <= i < |Row0Lines|
      ensures Follows(Row0Lines[i], 0, 16 * i)
    {
      if i == 0 { Row0Line0Follows(); }
      else if i == 1 { Row0Line1Follows(); }
      else if i == 2 { Row0Line2Follows(); }
      else if i == 3 { Row0Line3Follows(); }
      else if i == 4 { Row0Line4Follows(); }
      else if i == 5 { Row0Line5Follows(); }
      else if i == 6 { Row0Line6Follows(); }
      else if i == 7 { Row0Line7Follows(); }
      else if i == 8 { Row0Line8Follows(); }
      else if i == 9 { Row0Line9Follows(); }
      else if i == 10 { Row0Line10Follows(); }
      else if i == 11 { Row0Line11Follows(); }
      else if i == 12 { Row0Line12Follows(); }
      else if i == 13 { Row0Line13Follows(); }
      else if i == 14 { Row0Line14Follows(); }
      else { Row0Line15Follows(); }
    }
  }

  lemma Row1LinesFollow()
    ensures forall i :: 0 <= i < |Row1Lines| ==> Follows(Row1Lines[i], 1, 16 * i)
  {
    forall i | 0 <= i < |Row1Lines|
      ensures Follows(Row1Lines[i], 1, 16 * i)
    {
      if i == 0 { Row1Line0Follows(); }
      else if i == 1 { Row1Line1Follows(); }
      else if i == 2 { Row1Line2Follows(); }
      else if i == 3 { Row1Line3Follows(); }
      else if i == 4 { Row1Line4Follows(); }
      else if i == 5 { Row1Line5Follows(); }
      else if i == 6 { Row1Line6Follows(); }
      else if i == 7 { Row1Line7Follows(); }
      else if i == 8 { Row1Line8Follows(); }
      else if i == 9 { Row1Line9Follows(); }
      else if i == 10 { Row1Line10Follows(); }
      else if i == 11 { Row1Line11Follows(); }
      else if i == 12 { Row1Line12Follows(); }
      else if i == 13 { Row1Line13Follows(); }
      else if i == 14 { Row1Line14Follows(); }
      else { Row1Line15Follows(); }
    }
  }

  lemma Row4LinesFollow()
    ensures forall i :: 0 <= i < |Row4Lines| ==> Follows(Row4Lines[i], 4, 16 * i)
  {
    forall i | 0 <= i < |Row4Lines|
      ensures Follows(Row4Lines[i], 4, 16 * i)
    {
      if i == 0 { Row4Line0Follows(); }
      else if i == 1 { Row4Line1Follows(); }
      else if i == 2 { Row4Line2Follows(); }
      else if i == 3 { Row4Line3Follows(); }
      else if i == 4 { Row4Line4Follows(); }
      else if i == 5 { Row4Line5Follows(); }
      else if i == 6 { Row4Line6Follows(); }
      else if i == 7 { Row4Line7Follows(); }
      else if i == 8 { Row4Line8Follows(); }
      else if i == 9 { Row4Line9Follows(); }
      else if i == 10 { Row4Line10Follows(); }
      else if i == 11 { Row4Line11Follows(); }
      else if i == 12 { Row4Line12Follows(); }
      else if i == 13 { Row4Line13Follows(); }
      else if i == 14 { Row4Line14Follows(); }
      else { Row4Line15Follows(); }
    }
  }

  lemma Row7LinesFollow()
    ensures forall i :: 0 <= i < |Row7Lines| ==> Follows(Row7Lines[i], 7, 16 * i)
  {
    forall i | 0 <= i < |Row7Lines|
      ensures Follows(Row7Lines[i], 7, 16 * i)
    {
      if i == 0 { Row7Line0Follows(); }
      else if i == 1 { Row7Line1Follows(); }
      else if i == 2 { Row7Line2Follows(); }
      else if i == 3 { Row7Line3Follows(); }
      else if i == 4 { Row7Line4Follows(); }
      else if i == 5 { Row7Line5Follows(); }
      else if i == 6 { Row7Line6Follows(); }
      else if i == 7 { Row7Line7Follows(); }
      else if i == 8 { Row7Line8Follows(); }
      else if i == 9 { Row7Line9Follows(); }
      else if i == 10 { Row7Line10Follows(); }
      else if i == 11 { Row7Line11Follows(); }
      else if i == 12 { Row7Line12Follows(); }
      else if i == 13 { Row7Line13Follows(); }
      else if i == 14 { Row7Line14Follows(); }
      else { Row7Line15Follows(); }
    }
  }

  lemma Row8LinesFollow()
    ensures forall i :: 0 <= i < |Row8Lines| ==> Follows(Row8Lines[i], 8, 16 * i)
  {
    forall i | 0 <= i < |Row8Lines|
      ensures Follows(Row8Lines[i], 8, 16 * i)
    {
      if i == 0 { Row8Line0Follows(); }
      else if i == 1 { Row8Line1Follows(); }
      else if i == 2 { Row8Line2Follows(); }
      else if i == 3 { Row8Line3Follows(); }
      else if i == 4 { Row8Line4Follows(); }
      else if i == 5 { Row8Line5Follows(); }
      else if i == 6 { Row8Line6Follows(); }
      else if i == 7 { Row8Line7Follows(); }
      else if i == 8 { Row8Line8Follows(); }
      else if i == 9 { Row8Line9Follows(); }
      else if i == 10 { Row8Line10Follows(); }
      else if i == 11 { Row8Line11Follows(); }
      else if i == 12 { Row8Line12Follows(); }
      else if i == 13 { Row8Line13Follows(); }
      else if i == 14 { Row8Line14Follows(); }
      else { Row8Line15Follows(); }
    }
  }

  /** Mode 0 ("Disabled"): no history is credible. */
  lemma DisabledRow()
    ensures forall h :: 0 <= h < LutSize ==> PersistenceLut(0)[h] == 0x00
  {
    Row0LinesFollow();
    FlattenFollows(Row0Lines, 0);
  }

  /** Mode 1 ("Valid in 8/8"): only the all-valid history 0xFF is credible. */
  lemma ValidInEightOfEightRow()
    ensures forall h :: 0 <= h < LutSize ==> PersistenceLut(1)[h] == (if h == 255 then 0xFF else 0x00)
  {
    Row1LinesFollow();
    FlattenFollows(Row1Lines, 1);
  }

  /** Mode 4 ("Valid in 2/8"): a history is credible unless it has fewer than
      two set bits. */
  lemma ValidInTwoOfEightRow()
    ensures forall h :: 0 <= h < LutSize ==> PersistenceLut(4)[h] == (if h in FewerThanTwoValid then 0x00 else 0xFF)
  {
    Row4LinesFollow();
    FlattenFollows(Row4Lines, 4);
  }

  /** Mode 7 ("Valid in 1/8"): every history but the all-invalid one is credible. */
  lemma ValidInOneOfEightRow()
    ensures forall h :: 0 <= h < LutSize ==> PersistenceLut(7)[h] == (if h == 0 then 0x00 else 0xFF)
  {
    Row7LinesFollow();
    FlattenFollows(Row7Lines, 7);
  }

  /** Mode 8 ("Valid in previous"): every history is credible. */
  lemma ValidInPreviousRow()
    ensures forall h :: 0 <= h < LutSize ==> PersistenceLut(8)[h] == 0xFF
  {
    Row8LinesFollow();
    FlattenFollows(Row8Lines, 8);
  }

  /** The number of valid frame slots among the eight that each
      all-or-nothing mode asks for; mode 0 asks for more than eight, so it
      never fills. */
  function ValidFramesNeeded(mode: nat): nat
  {
    if mode == 0 then 9
    else if mode == 1 then 8
    else if mode == 4 then 2
    else if mode == 7 then 1
    else 0
  }

  /** Rows 0, 1, 4, 7 and 8 are exactly "at least K of the eight frame
      slots were valid", with K read from their mode descriptions. */
  lemma FlagRowsCountValidFrames(mode: nat, h: nat)
    requires mode in {0, 1, 4, 7, 8} && h < LutSize
    ensures PersistenceLut(mode)[h] == Flag(BitCount(h) >= ValidFramesNeeded(mode))
  {
    AllEightValid(h);
    if mode == 0 {
      DisabledRow();
    } else if mode == 1 {
      ValidInEightOfEightRow();
    } else if mode == 4 {
      ValidInTwoOfEightRow();
      FewerThanTwoValidBytes(h);
    } else if mode == 7 {
      ValidInOneOfEightRow();
    } else {
      ValidInPreviousRow();
    }
  }

  /** In every mode but 8 an all-invalid history is never credible, and in
      every mode but 0 an all-valid history always is, the mask rows
      included. */
  lemma EmptyAndFullHistories(mode: nat)
    requires mode < PersistenceMapNum
    ensures PersistenceLut(mode)[0] == (if mode == 8 then 0xFF else 0x00)
    ensures PersistenceLut(mode)[255] == (if mode == 0 then 0x00 else 0xFF)
  {
    if mode in {0, 1, 4, 7, 8} {
      AllEightValid(255);
      FlagRowsCountValidFrames(mode, 0);
      FlagRowsCountValidFrames(mode, 255);
    } else {
      MaskRowEnds(mode);
    }
  }

  /** The mask rows 2, 3, 5 and 6 start with 0x00 and end with 0xFF. */
  lemma MaskRowEnds(mode: nat)
    requires mode in {2, 3, 5, 6}
    ensures PersistenceLut(mode)[0] == 0x00 && PersistenceLut(mode)[255] == 0xFF
  {
    var lines := if mode == 2 then Row2Lines else if mode == 3 then Row3Lines else if mode == 5 then Row5Lines else Row6Lines;
    FlattenIndex(lines, 0, 0);
    FlattenIndex(lines, 15, 15);
  }

  // ---------------------------------------------------------------------
  // Checking a flag row one source line (sixteen entries) at a time
  //
  // One lemma per source line keeps each proof obligation to sixteen
  // literal entries; a single obligation over a whole 256-entry row costs
  // the solver far more. The `RowNLinesFollow` lemmas above combine them.
  // ---------------------------------------------------------------------

  lemma Row0Line0Follows()
    ensures Follows(Row0Lines[0], 0, 0)
  {
  }

  lemma Row0Line1Follows()
    ensures Follows(Row0Lines[1], 0, 16)
  {
  }

  lemma Row0Line2Follows()
    ensures Follows(Row0Lines[2], 0, 32)
  {
  }

  lemma Row0Line3Follows()
    ensures Follows(Row0Lines[3], 0, 48)
  {
  }

  lemma Row0Line4Follows()
    ensures Follows(Row0Lines[4], 0, 64)
  {
  }

  lemma Row0Line5Follows()
    ensures Follows(Row0Lines[5], 0, 80)
  {
  }

  lemma Row0Line6Follows()
    ensures Follows(Row0Lines[6], 0, 96)
  {
  }

  lemma Row0Line7Follows()
    ensures Follows(Row0Lines[7], 0, 112)
  {
  }

  lemma Row0Line8Follows()
    ensures Follows(Row0Lines[8], 0, 128)
  {
  }

  lemma Row0Line9Follows()
    ensures Follows(Row0Lines[9], 0, 144)
  {
  }

  lemma Row0Line10Follows()
    ensures Follows(Row0Lines[10], 0, 160)
  {
  }

  lemma Row0Line11Follows()
    ensures Follows(Row0Lines[11], 0, 176)
  {
  }

  lemma Row0Line12Follows()
    ensures Follows(Row0Lines[12], 0, 192)
  {
  }

  lemma Row0Line13Follows()
    ensures Follows(Row0Lines[13], 0, 208)
  {
  }

  lemma Row0Line14Follows()
    ensures Follows(Row0Lines[14], 0, 224)
  {
  }

  lemma Row0Line15Follows()
    ensures Follows(Row0Lines[15], 0, 240)
  {
  }

  lemma Row1Line0Follows()
    ensures Follows(Row1Lines[0], 1, 0)
  {
  }

  lemma Row1Line1Follows()
    ensures Follows(Row1Lines[1], 1, 16)
  {
  }

  lemma Row1Line2Follows()
    ensures Follows(Row1Lines[2], 1, 32)
  {
  }

  lemma Row1Line3Follows()
    ensures Follows(Row1Lines[3], 1, 48)
  {
  }

  lemma Row1Line4Follows()
    ensures Follows(Row1Lines[4], 1, 64)
  {
  }

  lemma Row1Line5Follows()
    ensures Follows(Row1Lines[5], 1, 80)
  {
  }

  lemma Row1Line6Follows()
    ensures Follows(Row1Lines[6], 1, 96)
  {
  }

  lemma Row1Line7Follows()
    ensures Follows(Row1Lines[7], 1, 112)
  {
  }

  lemma Row1Line8Follows()
    ensures Follows(Row1Lines[8], 1, 128)
  {
  }

  lemma Row1Line9Follows()
    ensures Follows(Row1Lines[9], 1, 144)
  {
  }

  lemma Row1Line10Follows()
    ensures Follows(Row1Lines[10], 1, 160)
  {
  }

  lemma Row1Line11Follows()
    ensures Follows(Row1Lines[11], 1, 176)
  {
  }

  lemma Row1Line12Follows()
    ensures Follows(Row1Lines[12], 1, 192)
  {
  }

  lemma Row1Line13Follows()
    ensures Follows(Row1Lines[13], 1, 208)
  {
  }

  lemma Row1Line14Follows()
    ensures Follows(Row1Lines[14], 1, 224)
  {
  }

  lemma Row1Line15Follows()
    ensures Follows(Row1Lines[15], 1, 240)
  {
  }

  lemma Row4Line0Follows()
    ensures Follows(Row4Lines[0], 4, 0)
  {
  }

  lemma Row4Line1Follows()
    ensures Follows(Row4Lines[1], 4, 16)
  {
  }

  lemma Row4Line2Follows()
    ensures Follows(Row4Lines[2], 4, 32)
  {
  }

  lemma Row4Line3Follows()
    ensures Follows(Row4Lines[3], 4, 48)
  {
  }

  lemma Row4Line4Follows()
    ensures Follows(Row4Lines[4], 4, 64)
  {
  }

  lemma Row4Line5Follows()
    ensures Follows(Row4Lines[5], 4, 80)
  {
  }

  lemma Row4Line6Follows()
    ensures Follows(Row4Lines[6], 4, 96)
  {
  }

  lemma Row4Line7Follows()
    ensures Follows(Row4Lines[7], 4, 112)
  {
  }

  lemma Row4Line8Follows()
    ensures Follows(Row4Lines[8], 4, 128)
  {
  }

  lemma Row4Line9Follows()
    ensures Follows(Row4Lines[9], 4, 144)
  {
  }

  lemma Row4Line10Follows()
    ensures Follows(Row4Lines[10], 4, 160)
  {
  }

  lemma Row4Line11Follows()
    ensures Follows(Row4Lines[11], 4, 176)
  {
  }

  lemma Row4Line12Follows()
    ensures Follows(Row4Lines[12], 4, 192)
  {
  }

  lemma Row4Line13Follows()
    ensures Follows(Row4Lines[13], 4, 208)
  {
  }

  lemma Row4Line14Follows()
    ensures Follows(Row4Lines[14], 4, 224)
  {
  }

  lemma Row4Line15Follows()
    ensures Follows(Row4Lines[15], 4, 240)
  {
  }

  lemma Row7Line0Follows()
    ensures Follows(Row7Lines[0], 7, 0)
  {
  }

  lemma Row7Line1Follows()
    ensures Follows(Row7Lines[1], 7, 16)
  {
  }

  lemma Row7Line2Follows()
    ensures Follows(Row7Lines[2], 7, 32)
  {
  }

  lemma Row7Line3Follows()
    ensures Follows(Row7Lines[3], 7, 48)
  {
  }

  lemma Row7Line4Follows()
    ensures Follows(Row7Lines[4], 7, 64)
  {
  }

  lemma Row7Line5Follows()
    ensures Follows(Row7Lines[5], 7, 80)
  {
  }

  lemma Row7Line6Follows()
    ensures Follows(Row7Lines[6], 7, 96)
  {
  }

  lemma Row7Line7Follows()
    ensures Follows(Row7Lines[7], 7, 112)
  {
  }

  lemma Row7Line8Follows()
    ensures Follows(Row7Lines[8], 7, 128)
  {
  }

  lemma Row7Line9Follows()
    ensures Follows(Row7Lines[9], 7, 144)
  {
  }

  lemma Row7Line10Follows()
    ensures Follows(Row7Lines[10], 7, 160)
  {
  }

  lemma Row7Line11Follows()
    ensures Follows(Row7Lines[11], 7, 176)
  {
  }

  lemma Row7Line12Follows()
    ensures Follows(Row7Lines[12], 7, 192)
  {
  }

  lemma Row7Line13Follows()
    ensures Follows(Row7Lines[13], 7, 208)
  {
  }

  lemma Row7Line14Follows()
    ensures Follows(Row7Lines[14], 7, 224)
  {
  }

  lemma Row7Line15Follows()
    ensures Follows(Row7Lines[15], 7, 240)
  {
  }

  lemma Row8Line0Follows()
    ensures Follows(Row8Lines[0], 8, 0)
  {
  }

  lemma Row8Line1Follows()
    ensures Follows(Row8Lines[1], 8, 16)
  {
  }

  lemma Row8Line2Follows()
    ensures Follows(Row8Lines[2], 8, 32)
  {
  }

  lemma Row8Line3Follows()
    ensures Follows(Row8Lines[3], 8, 48)
  {
  }

  lemma Row8Line4Follows()
    ensures Follows(Row8Lines[4], 8, 64)
  {
  }

  lemma Row8Line5Follows()
    ensures Follows(Row8Lines[5], 8, 80)
  {
  }

  lemma Row8Line6Follows()
    ensures Follows(Row8Lines[6], 8, 96)
  {
  }

  lemma Row8Line7Follows()
    ensures Follows(Row8Lines[7], 8, 112)
  {
  }

  lemma Row8Line8Follows()
    ensures Follows(Row8Lines[8], 8, 128)
  {
  }

  lemma Row8Line9Follows()
    ensures Follows(Row8Lines[9], 8, 144)
  {
  }

  lemma Row8Line10Follows()
    ensures Follows(Row8Lines[10], 8, 160)
  {
  }

  lemma Row8Line11Follows()
    ensures Follows(Row8Lines[11], 8, 176)
  {
  }

  lemma Row8Line12Follows()
    ensures Follows(Row8Lines[12], 8, 192)
  {
  }

  lemma Row8Line13Follows()
    ensures Follows(Row8Lines[13], 8, 208)
  {
  }

  lemma Row8Line14Follows()
    ensures Follows(Row8Lines[14], 8, 224)
  {
  }

  lemma Row8Line15Follows()
    ensures Follows(Row8Lines[15], 8, 240)
  {
  }
}
