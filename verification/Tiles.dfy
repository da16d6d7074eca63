/** Valhalla's tile grid: a tile's path, its bounding box, and the choice of the tiles of a package. */
module Tiles {
  import opened Common
  import opened Decimals

  datatype Bbox = Bbox(minX: real, minY: real, maxX: real, maxY: real)

  /** TILE_SIZES: the edge of a tile in degrees, by level. */
  function SizeOf(level: nat): real
    requires level <= 2
  {
    if level == 0 then 4.0 else if level == 1 then 1.0 else 0.25
  }

  /** The grid of a level has this many columns and half as many rows. */
  function Columns(level: nat): nat
    requires level <= 2
  {
    if level == 0 then 90 else if level == 1 then 360 else 1440
  }

  function Rows(level: nat): nat
    requires level <= 2
  {
    Columns(level) / 2
  }

  function BoxOf(level: nat, col: int, row: int): Bbox
    requires level <= 2
  {
    var s := SizeOf(level);
    var x, y := col as real * s - 180.0, row as real * s - 90.0;
    Bbox(x, y, x + s, y + s)
  }

  predicate InGrid(level: nat, col: int, row: int) {
    level <= 2 && 0 <= col < Columns(level) && 0 <= row < Rows(level)
  }

  // ----- Paths -----

  /** What reading a tile's path may raise. */
  datatype TileError = ValueError | KeyError

  /** `s.replace(c, "")` */
  function Without(s: string, c: char): string {
    if |s| == 0 then "" else if s[0] == c then Without(s[1..], c) else [s[0]] + Without(s[1..], c)
  }

  /** `s.replace(c, d)` */
  function Replaced(s: string, c: char, d: char): string {
    seq(|s|, i requires 0 <= i < |s| => if s[i] == c then d else s[i])
  }

  /** `s.split(c, 1)` */
  function SplitOnce(s: string, c: char): seq<string> {
    if c !in s then [s]
    else if s[0] == c then ["", s[1..]]
    else var rest := SplitOnce(s[1..], c);
         [[s[0]] + rest[0]] + rest[1..]
  }

  /** `get_tile_level_id`: everything before the suffix, cut at the first slash. */
  function GetTileLevelId(path: string): seq<string> {
    SplitOnce(path[..Max(|path| - 4, 0)], '/')
  }

  /** `get_tile_bbox` */
  function GetTileBbox(path: string): Result<Bbox, TileError> {
    var parts := GetTileLevelId(path);
    if |parts| != 2 then Raised(ValueError)
    else
      var level, tileIdx := Int(Without(parts[0], '/')), Int(Without(parts[1], '/'));
      if level.None? || tileIdx.None? then Raised(ValueError)
      else if level.value > 2 then Raised(KeyError)
      else Ok(BoxOf(level.value, tileIdx.value % Columns(level.value), tileIdx.value / Columns(level.value)))
  }

  /** `str(n)` */
  function Str(n: nat): string {
    if n < 10 then [Digit(n)] else Str(n / 10) + [Digit(n % 10)]
  }

  /** `"{:,}".format(n)` */
  function Thousands(n: nat): string {
    if n < 1000 then Str(n) else Thousands(n / 1000) + "," + Padded(n % 1000, 3)
  }

  const TAR_PATH_LENGTHS := [6, 6, 9]

  /** `tile_base_to_path`; a base that is not a multiple of the tile size fails its assertion. */
  function TileBaseToPath(baseX: real, baseY: real, level: nat): Option<string>
    requires level <= 2 && -180.0 <= baseX < 180.0 && -90.0 <= baseY < 90.0
  {
    var s := SizeOf(level);
    var row, col := ((baseY + 90.0) / s).Floor, ((baseX + 180.0) / s).Floor;
    if col as real * s != baseX + 180.0 || row as real * s != baseY + 90.0 then None
    else
      GridCell(level, baseX, baseY);
      Some(PathOf(level, row * Columns(level) + col))
  }

  function PathOf(level: nat, tileId: nat): string
    requires level <= 2
  {
    Str(level) + Replaced(Thousands(Power10(TAR_PATH_LENGTHS[level]) + tileId), ',', '/')[1..] + ".gph"
  }

  lemma GridCell(level: nat, x: real, y: real)
    requires level <= 2 && -180.0 <= x < 180.0 && -90.0 <= y < 90.0
    ensures InGrid(level, ((x + 180.0) / SizeOf(level)).Floor, ((y + 90.0) / SizeOf(level)).Floor)
  {
  }

  // ----- Printing and parsing -----

  /** `count` groups of three digits, each after a slash. */
  function Groups(n: nat, count: nat): string {
    if count == 0 then "" else Groups(n / 1000, count - 1) + ("/" + Padded(n % 1000, 3))
  }

  lemma HeadAndTail(a: string, b: string)
    requires |a| > 0
    ensures (a + b)[0] == a[0] && (a + b)[1..] == a[1..] + b
  {
  }

  lemma OneInFront(x: char, a: string, b: string)
    ensures [x] + (a + b) == [x] + a + b
  {
  }

  lemma WithoutFirst(s: string, c: char)
    ensures |s| == 0 ==> Without(s, c) == ""
    ensures |s| > 0 ==> Without(s, c) == if s[0] == c then Without(s[1..], c) else [s[0]] + Without(s[1..], c)
  {
  }

  lemma {:induction false} WithoutOfTwoParts(a: string, b: string, c: char)
    ensures Without(a + b, c) == Without(a, c) + Without(b, c)
  {
    hide Without;
    WithoutFirst(a, c);
    if |a| == 0 {
      assert a + b == b;
    } else {
      HeadAndTail(a, b);
      WithoutFirst(a + b, c);
      WithoutOfTwoParts(a[1..], b, c);
      OneInFront(a[0], Without(a[1..], c), Without(b, c));
    }
  }

  lemma ReplacedInTwoParts(a: string, b: string, c: char, d: char)
    ensures Replaced(a + b, c, d) == Replaced(a, c, d) + Replaced(b, c, d)
  {
  }

  lemma {:induction false} DigitsStay(s: string)
    requires AllDigits(s)
    ensures Without(s, '/') == s && Replaced(s, ',', '/') == s
  {
    if |s| > 0 {
      DigitsStay(s[1..]);
      assert s == [s[0]] + s[1..];
    }
  }

  lemma ThreeDigitsMore(n: nat, count: nat)
    ensures Padded(n, count + 3) == Padded(n / 1000, count) + Padded(n % 1000, 3)
  {
    assert Padded(n, count + 3) == Padded(n / 10, count + 2) + [Digit(n % 10)];
    assert Padded(n / 10, count + 2) == Padded(n / 10 / 10, count + 1) + [Digit(n / 10 % 10)];
    assert Padded(n / 100, count + 1) == Padded(n / 100 / 10, count) + [Digit(n / 100 % 10)];
    assert n / 10 / 10 == n / 100 && n / 100 / 10 == n / 1000;
    var m := n % 1000;
    LastThreeDigits(n);
    assert Padded(m, 3) == Padded(m / 10, 2) + [Digit(m % 10)];
    assert Padded(m / 10, 2) == Padded(m / 100, 1) + [Digit(m / 10 % 10)];
    assert Padded(m / 100, 1) == Padded(m / 100 / 10, 0) + [Digit(m / 100 % 10)];
  }

  lemma LastThreeDigits(n: nat)
    ensures var m := n % 1000;
            && m % 10 == n % 10 && m / 10 % 10 == n / 10 % 10 && m / 100 % 10 == n / 100 % 10
            && m / 10 / 10 == m / 100
  {
    var q, a, b, c := n / 10 / 10 / 10, n / 10 / 10 % 10, n / 10 % 10, n % 10;
    RowAndColumn(q, 100 * a + 10 * b + c, 1000);
    RowAndColumn(100 * q + 10 * a + b, c, 10);
    RowAndColumn(10 * q + a, 10 * b + c, 100);
    var m := 100 * a + 10 * b + c;
    RowAndColumn(10 * a + b, c, 10);
    RowAndColumn(a, 10 * b + c, 100);
    RowAndColumn(a, b, 10);
  }

  /** The grouped digits, once the slashes are taken out. */
  lemma {:induction false} GroupsHoldDigits(n: nat, count: nat)
    ensures Without(Groups(n, count), '/') == Padded(n, 3 * count)
  {
    if count > 0 {
      GroupsHoldDigits(n / 1000, count - 1);
      WithoutOfTwoParts(Groups(n / 1000, count - 1), "/" + Padded(n % 1000, 3), '/');
      assert Without("/" + Padded(n % 1000, 3), '/') == Padded(n % 1000, 3) by {
        assert ("/" + Padded(n % 1000, 3))[1..] == Padded(n % 1000, 3);
        DigitsStay(Padded(n % 1000, 3));
      }
      ThreeDigitsMore(n, 3 * count - 3);
    }
  }

  lemma {:induction false} GroupsStartWithSlash(n: nat, count: nat)
    requires count > 0
    ensures |Groups(n, count)| == 4 * count && Groups(n, count)[0] == '/'
    decreases count
  {
    if count == 1 {
      assert Groups(n / 1000, 0) == "";
    } else {
      GroupsStartWithSlash(n / 1000, count - 1);
    }
  }

  lemma LastGroup(n: nat)
    ensures Replaced("," + Padded(n, 3), ',', '/') == "/" + Padded(n, 3)
  {
    DigitsStay(Padded(n, 3));
    assert ("," + Padded(n, 3))[1..] == Padded(n, 3);
  }

  /** One more group of three digits in front of the last. */
  lemma OneMoreGroup(p: nat, n: nat)
    requires p > 0
    ensures Replaced(Thousands(1000 * p + n), ',', '/')
              == Replaced(Thousands(p + n / 1000), ',', '/') + ("/" + Padded(n % 1000, 3))
  {
    var m := 1000 * p + n;
    RowAndColumn(p + n / 1000, n % 1000, 1000);
    assert m == (p + n / 1000) * 1000 + n % 1000;
    var front, last := Thousands(p + n / 1000), "," + Padded(n % 1000, 3);
    assert Thousands(m) == front + "," + Padded(n % 1000, 3) == front + last;
    ReplacedInTwoParts(front, last, ',', '/');
    LastGroup(n % 1000);
  }

  /** The leading one that is printed and cut off again keeps the zeros after it. */
  lemma {:induction false} LeadingOne(n: nat, count: nat)
    requires n < Power10(3 * count)
    ensures Replaced(Thousands(Power10(3 * count) + n), ',', '/') == "1" + Groups(n, count)
  {
    hide Replaced, Thousands, Padded;
    if count == 0 {
      LeadingOneAlone();
    } else {
      var p := Power10(3 * count - 3);
      ThreeZerosMore(3 * count - 3);
      assert Power10(3 * count) == 1000 * p;
      OneMoreGroup(p, n);
      LeadingOne(n / 1000, count - 1);
      var front, last := Groups(n / 1000, count - 1), "/" + Padded(n % 1000, 3);
      assert Groups(n, count) == front + last;
      hide *;
      assert "1" + front + last == "1" + (front + last);
    }
  }

  lemma LeadingOneAlone()
    ensures Replaced(Thousands(1), ',', '/') == "1"
  {
    assert Thousands(1) == Str(1) == [Digit(1)] == "1";
  }

  lemma ThreeZerosMore(n: nat)
    ensures Power10(n + 3) == 1000 * Power10(n)
  {
    assert Power10(n + 3) == 10 * Power10(n + 2);
    assert Power10(n + 2) == 10 * Power10(n + 1);
  }

  function GroupCount(level: nat): nat
    requires level <= 2
  {
    TAR_PATH_LENGTHS[level] / 3
  }

  /** What a path looks like: the level, and the tile's number in groups of three digits. */
  lemma PathLooksLike(level: nat, tileId: nat)
    requires level <= 2 && tileId < Power10(TAR_PATH_LENGTHS[level])
    ensures PathOf(level, tileId) == [Digit(level)] + Groups(tileId, GroupCount(level)) + ".gph"
  {
    LeadingOne(tileId, GroupCount(level));
    assert ("1" + Groups(tileId, GroupCount(level)))[1..] == Groups(tileId, GroupCount(level));
  }

  lemma IdFitsPath(level: nat, col: nat, row: nat)
    requires InGrid(level, col, row)
    ensures row * Columns(level) + col < Power10(TAR_PATH_LENGTHS[level])
  {
    assert Power10(3) == 1000;
    ThreeZerosMore(3);
    ThreeZerosMore(6);
  }

  lemma SplitsAtFirstSlash(c: char, groups: string)
    requires c != '/' && |groups| > 0 && groups[0] == '/'
    ensures SplitOnce([c] + groups, '/') == [[c], groups[1..]]
    ensures Without(groups, '/') == Without(groups[1..], '/')
  {
    assert groups == "/" + groups[1..];
    assert ([c] + groups)[1..] == groups;
    assert SplitOnce(groups, '/') == ["", groups[1..]];
    assert [c] + "" == [c];
  }

  /** A printed path is cut into its level and its groups of digits. */
  lemma CutsPrinted(level: nat, tileId: nat)
    requires level <= 2 && tileId < Power10(TAR_PATH_LENGTHS[level])
    ensures var groups := Groups(tileId, GroupCount(level));
            && |groups| > 0 && Without(groups, '/') == Without(groups[1..], '/')
            && GetTileLevelId(PathOf(level, tileId)) == [[Digit(level)], groups[1..]]
  {
    var groups, path := Groups(tileId, GroupCount(level)), PathOf(level, tileId);
    PathLooksLike(level, tileId);
    GroupsStartWithSlash(tileId, GroupCount(level));
    hide Groups, PathOf, Power10, SplitOnce, Without;
    assert path[..|path| - 4] == [Digit(level)] + groups;
    SplitsAtFirstSlash(Digit(level), groups);
  }

  lemma {:induction false} CutsAtFirst(a: string, b: string, c: char)
    requires c !in a
    ensures SplitOnce(a + [c] + b, c) == [a, b]
    ensures Without(a, c) == a
  {
    var s := a + [c] + b;
    assert s[|a|] == c;
    if |a| > 0 {
      assert s[0] == a[0] && a[0] in a && s[1..] == a[1..] + [c] + b;
      CutsAtFirst(a[1..], b, c);
      assert [a[0]] + a[1..] == a;
    } else {
      assert s[1..] == b;
    }
  }

  /** Of any path with a slash, what comes before the first one has to be a level, and the rest a number. */
  lemma ReadsAnyPath(level: string, rest: string)
    requires '/' !in level
    ensures var l, id := Int(level), Int(Without(rest, '/'));
            GetTileBbox(level + "/" + rest + ".gph")
            == if l.None? || id.None? then Raised(ValueError)
               else if l.value !in {0, 1, 2} then Raised(KeyError)
               else Ok(BoxOf(l.value, id.value % Columns(l.value), id.value / Columns(l.value)))
  {
    var path := level + "/" + rest + ".gph";
    assert path[..|path| - 4] == level + "/" + rest;
    CutsAtFirst(level, rest, '/');
    hide SplitOnce, Without, Int, BoxOf, Columns;
  }

  /** Parsing a printed path gives back the level and the number of the tile. */
  lemma ParsesPrinted(level: nat, tileId: nat)
    requires level <= 2 && tileId < Power10(TAR_PATH_LENGTHS[level])
    ensures GetTileBbox(PathOf(level, tileId)) == Ok(BoxOf(level, tileId % Columns(level), tileId / Columns(level)))
  {
    var count := GroupCount(level);
    assert count > 0 && 3 * count == TAR_PATH_LENGTHS[level];
    CutsPrinted(level, tileId);
    GroupsHoldDigits(tileId, count);
    PaddedRoundTrip(tileId, 3 * count);
    DigitsStay([Digit(level)]);
    SingleDigit(Digit(level));
    hide Groups, PathOf, Padded, Power10, Without, ValueOf, BoxOf, GetTileLevelId, Columns;
  }

  /** The path of the tile in this column and row. */
  function TilePath(level: nat, col: nat, row: nat): string
    requires level <= 2
  {
    PathOf(level, row * Columns(level) + col)
  }

  lemma PrintedExample()
    ensures Thousands(1003197) == "1,003,197"
  {
    assert Thousands(1) == "1";
    hide Thousands, Padded;
    GroupsOfThree(1, 3, "1", "003");
    assert Thousands(1003) == "1,003";
    GroupsOfThree(1003, 197, "1,003", "197");
  }

  lemma ReplacedExample()
    ensures Replaced("1,003,197", ',', '/')[1..] == "/003/197"
  {
  }

  lemma MillionExample()
    ensures Power10(6) == 1000000 && Str(0) == "0"
  {
    assert Power10(3) == 1000;
  }

  lemma IdExample()
    ensures PathOf(0, 3197) == "0" + "/003/197" + ".gph"
  {
    hide Thousands, Power10, Str, Padded, Replaced;
    MillionExample();
    PrintedExample();
    ReplacedExample();
  }

  /** The path of a tile, as Valhalla writes it, and its box. */
  lemma PathExample()
    ensures TilePath(0, 47, 35) == "0/003/197.gph" && BoxOf(0, 47, 35) == Bbox(8.0, 50.0, 12.0, 54.0)
  {
    hide PathOf;
    IdExample();
    assert "0" + "/003/197" + ".gph" == "0/003/197.gph";
  }

  lemma GroupsOfThree(n: nat, m: nat, front: string, last: string)
    requires n > 0 && m < 1000 && Thousands(n) == front && |last| == 3
    requires last == [Digit(m / 100)] + [Digit(m / 10 % 10)] + [Digit(m % 10)]
    ensures Thousands(1000 * n + m) == front + "," + last
  {
    assert (1000 * n + m) / 1000 == n && (1000 * n + m) % 1000 == m;
    assert Padded(m / 100, 1) == [Digit(m / 100 % 10)];
    assert Padded(m / 10, 2) == Padded(m / 100, 1) + [Digit(m / 10 % 10)];
    assert Padded(m, 3) == Padded(m / 10, 2) + [Digit(m % 10)];
  }

  /** The printer takes exactly the corners of tiles, and prints the path of that tile. */
  lemma PrintsCorners(level: nat, x: real, y: real)
    requires level <= 2 && -180.0 <= x < 180.0 && -90.0 <= y < 90.0
    ensures var col, row := ((x + 180.0) / SizeOf(level)).Floor, ((y + 90.0) / SizeOf(level)).Floor;
            && InGrid(level, col, row)
            && TileBaseToPath(x, y, level)
               == if BoxOf(level, col, row).minX == x && BoxOf(level, col, row).minY == y
                  then Some(TilePath(level, col, row)) else None
  {
    hide PathOf;
    GridCell(level, x, y);
  }

  /** Printing the base of any tile of the grid and parsing the path gives the tile's box back. */
  lemma TilePathRoundTrip(baseX: real, baseY: real, level: nat)
    requires level <= 2 && -180.0 <= baseX < 180.0 && -90.0 <= baseY < 90.0
    requires TileBaseToPath(baseX, baseY, level).Some?
    ensures var s := SizeOf(level);
            GetTileBbox(TileBaseToPath(baseX, baseY, level).value) == Ok(Bbox(baseX, baseY, baseX + s, baseY + s))
  {
    var row, col := ((baseY + 90.0) / SizeOf(level)).Floor, ((baseX + 180.0) / SizeOf(level)).Floor;
    PrintsCorners(level, baseX, baseY);
    hide PathOf, TileBaseToPath, GetTileBbox;
    ParsesCell(level, col, row);
  }

  lemma ParsesCell(level: nat, col: nat, row: nat)
    requires InGrid(level, col, row)
    ensures GetTileBbox(TilePath(level, col, row)) == Ok(BoxOf(level, col, row))
  {
    hide PathOf, GetTileBbox, BoxOf, Power10;
    IdFitsPath(level, col, row);
    RowAndColumn(row, col, Columns(level));
    ParsesPrinted(level, row * Columns(level) + col);
  }

  lemma RowAndColumn(row: nat, col: nat, columns: nat)
    requires col < columns
    ensures (row * columns + col) / columns == row && (row * columns + col) % columns == col
  {
    var n := row * columns + col;
    var q, r := n / columns, n % columns;
    assert n == q * columns + r;
    LeadingDigitDecides(q, row, r, col, columns);
    LeadingDigitDecides(row, q, col, r, columns);
  }

  /** Different tiles have different paths. */
  lemma PathsAreDistinct(level: nat, x: real, y: real, level': nat, x': real, y': real)
    requires level <= 2 && -180.0 <= x < 180.0 && -90.0 <= y < 90.0
    requires level' <= 2 && -180.0 <= x' < 180.0 && -90.0 <= y' < 90.0
    ensures TileBaseToPath(x, y, level).Some? && TileBaseToPath(x, y, level) == TileBaseToPath(x', y', level') ==>
              level == level' && x == x' && y == y'
  {
    hide TileBaseToPath, GetTileBbox;
    if TileBaseToPath(x, y, level).Some? { TilePathRoundTrip(x, y, level); }
    if TileBaseToPath(x', y', level').Some? { TilePathRoundTrip(x', y', level'); }
  }

  // ----- The grid -----

  /** The point lies in the closed box. */
  predicate Inside(x: real, y: real, b: Bbox) {
    b.minX <= x <= b.maxX && b.minY <= y <= b.maxY
  }

  /** The point lies in the box without its upper and right edge. */
  predicate Within(x: real, y: real, b: Bbox) {
    b.minX <= x < b.maxX && b.minY <= y < b.maxY
  }

  predicate Encloses(outer: Bbox, inner: Bbox) {
    outer.minX <= inner.minX && inner.maxX <= outer.maxX && outer.minY <= inner.minY && inner.maxY <= outer.maxY
  }

  /** Different cells have different boxes. */
  lemma BoxesAreDistinct(level: nat, col: int, row: int, col': int, row': int)
    requires level <= 2 && BoxOf(level, col, row) == BoxOf(level, col', row')
    ensures col == col' && row == row'
  {
  }

  /** The boxes of a level tile the globe: each point is in exactly one of them. */
  lemma EachPointIsInOneTile(level: nat, x: real, y: real)
    requires level <= 2 && -180.0 <= x < 180.0 && -90.0 <= y < 90.0
    ensures var col, row := ((x + 180.0) / SizeOf(level)).Floor, ((y + 90.0) / SizeOf(level)).Floor;
            && InGrid(level, col, row) && Within(x, y, BoxOf(level, col, row))
            && forall c: int, r: int | Within(x, y, BoxOf(level, c, r)) :: c == col && r == row
  {
  }

  /** No box of the grid reaches beyond the globe. */
  lemma TilesAreOnTheGlobe(level: nat, col: int, row: int)
    requires level <= 2
    ensures Encloses(Bbox(-180.0, -90.0, 180.0, 90.0), BoxOf(level, col, row)) <==> InGrid(level, col, row)
  {
  }

  /** The tile lies in this tile of the next coarser level. */
  predicate LiesIn(level: nat, col: int, row: int, c: int, r: int)
    requires 1 <= level <= 2
  {
    Encloses(BoxOf(level - 1, c, r), BoxOf(level, col, row))
  }

  /** Every tile lies in exactly one tile of the next coarser level. */
  lemma EachTileHasOneParent(level: nat, col: int, row: int)
    requires 1 <= level <= 2 && InGrid(level, col, row)
    ensures InGrid(level - 1, col / 4, row / 4)
    ensures forall c: int, r: int :: LiesIn(level, col, row, c, r) <==> c == col / 4 && r == row / 4
  {
    forall c: int, r: int
      ensures LiesIn(level, col, row, c, r) <==> c == col / 4 && r == row / 4
    {
      LiesInQuarters(level, col, row, c, r);
    }
  }

  lemma LiesInQuarters(level: nat, col: int, row: int, c: int, r: int)
    requires 1 <= level <= 2
    ensures LiesIn(level, col, row, c, r) <==> 4 * c <= col < 4 * c + 4 && 4 * r <= row < 4 * r + 4
  {
  }

  /** The column or row that holds this one on a coarser level: a quarter of it for each level between. */
  function Coarser(k: int, levels: nat): int
    decreases levels
  {
    if levels == 0 then k else Coarser(k / 4, levels - 1)
  }

  /** The cell of a coarser level encloses the cell of a finer one. */
  predicate LiesWithin(level: nat, col: int, row: int, coarser: nat, c: int, r: int)
    requires coarser <= level <= 2
  {
    Encloses(BoxOf(coarser, c, r), BoxOf(level, col, row))
  }

  /** Every tile lies in exactly one tile of each coarser level. */
  lemma EachTileHasOneAncestor(level: nat, col: int, row: int, coarser: nat)
    requires coarser <= level <= 2 && InGrid(level, col, row)
    ensures InGrid(coarser, Coarser(col, level - coarser), Coarser(row, level - coarser))
    ensures forall c: int, r: int ::
              LiesWithin(level, col, row, coarser, c, r) <==>
              c == Coarser(col, level - coarser) && r == Coarser(row, level - coarser)
  {
    AncestorIsDivision(col, level - coarser);
    AncestorIsDivision(row, level - coarser);
    forall c: int, r: int
      ensures LiesWithin(level, col, row, coarser, c, r)
         <==> c == Coarser(col, level - coarser) && r == Coarser(row, level - coarser)
    {
      LiesWithinMultiples(level, col, row, coarser, c, r);
    }
  }

  function Edges(levels: nat): nat {
    if levels == 0 then 1 else if levels == 1 then 4 else 16
  }

  lemma AncestorIsDivision(k: int, levels: nat)
    requires levels <= 2
    ensures Coarser(k, levels) == k / Edges(levels)
    ensures Edges(levels) * Coarser(k, levels) <= k < Edges(levels) * Coarser(k, levels) + Edges(levels)
  {
    assert levels > 0 ==> Coarser(k, levels) == Coarser(k / 4, levels - 1);
    assert k / 4 / 4 == k / 16;
  }

  lemma LiesWithinMultiples(level: nat, col: int, row: int, coarser: nat, c: int, r: int)
    requires coarser <= level <= 2
    ensures var n := Edges(level - coarser);
            LiesWithin(level, col, row, coarser, c, r) <==> n * c <= col < n * c + n && n * r <= row < n * r + n
  {
  }

  // ----- The choice of tiles -----

  /** The four comparisons of `get_tiles_with_bbox`, any of which leaves the tile out. */
  predicate IsOutside(tile: Bbox, bbox: Bbox) {
    || (tile.minX < bbox.minX && tile.maxX < bbox.minX)
    || (tile.minY < bbox.minY && tile.maxY < bbox.minY)
    || (tile.minX > bbox.maxX && tile.maxX > bbox.maxX)
    || (tile.minY > bbox.maxY && tile.maxY > bbox.maxY)
  }

  /** The closed boxes have a point in common. */
  ghost predicate Meet(a: Bbox, b: Bbox) {
    exists x, y :: Inside(x, y, a) && Inside(x, y, b)
  }

  predicate IsBox(b: Bbox) {
    b.minX <= b.maxX && b.minY <= b.maxY
  }

  lemma SelectedIffMeets(tile: Bbox, bbox: Bbox)
    requires IsBox(tile) && IsBox(bbox)
    ensures !IsOutside(tile, bbox) <==> Meet(tile, bbox)
  {
    if !IsOutside(tile, bbox) {
      var x := if tile.minX < bbox.minX then bbox.minX else tile.minX;
      var y := if tile.minY < bbox.minY then bbox.minY else tile.minY;
      assert Inside(x, y, tile) && Inside(x, y, bbox);
    }
  }

  lemma ParsedIsBox(path: string)
    ensures GetTileBbox(path).Ok? ==> IsBox(GetTileBbox(path).value)
  {
  }

  /** The tiles whose closed box meets the closed bbox. */
  ghost function Selection(allTilePaths: seq<string>, bbox: Bbox): set<string> {
    set path | path in allTilePaths && GetTileBbox(path).Ok? && Meet(GetTileBbox(path).value, bbox)
  }

  /** The tiles that none of the comparisons leaves out. */
  function Chosen(allTilePaths: seq<string>, bbox: Bbox): set<string> {
    set path | path in allTilePaths && GetTileBbox(path).Ok? && !IsOutside(GetTileBbox(path).value, bbox)
  }

  /** The comparisons choose exactly the tiles that meet the bbox. */
  lemma ChosenIsSelection(allTilePaths: seq<string>, bbox: Bbox)
    requires IsBox(bbox)
    ensures Chosen(allTilePaths, bbox) == Selection(allTilePaths, bbox)
  {
    forall path | path in allTilePaths && GetTileBbox(path).Ok?
      ensures !IsOutside(GetTileBbox(path).value, bbox) <==> Meet(GetTileBbox(path).value, bbox)
    {
      ParsedIsBox(path);
      SelectedIffMeets(GetTileBbox(path).value, bbox);
    }
  }

  /** `get_tiles_with_bbox`: the chosen tiles, or the error of the first path that is none of a tile. */
  method GetTilesWithBbox(allTilePaths: seq<string>, bbox: Bbox) returns (r: Result<set<string>, TileError>)
    ensures r.Ok? <==> forall path | path in allTilePaths :: GetTileBbox(path).Ok?
    ensures r.Ok? ==> r.value == Chosen(allTilePaths, bbox)
    ensures r.Ok? && IsBox(bbox) ==> r.value == Selection(allTilePaths, bbox)
    ensures r.Raised? ==> exists i | 0 <= i < |allTilePaths| ::
                            && GetTileBbox(allTilePaths[i]) == Raised(r.error)
                            && forall path | path in allTilePaths[..i] :: GetTileBbox(path).Ok?
  {
    var tilePaths := {};
    for i := 0 to |allTilePaths|
      invariant forall path | path in allTilePaths[..i] :: GetTileBbox(path).Ok?
      invariant tilePaths == Chosen(allTilePaths[..i], bbox)
    {
      var tilePath := allTilePaths[i];
      assert forall path :: path in allTilePaths[..i + 1] <==> path in allTilePaths[..i] || path == tilePath;
      var tileBbox := GetTileBbox(tilePath);
      if tileBbox.Raised? {
        return Raised(tileBbox.error);
      }
      if !IsOutside(tileBbox.value, bbox) {
        tilePaths := tilePaths + {tilePath};
      }
    }
    assert allTilePaths[..|allTilePaths|] == allTilePaths;
    if IsBox(bbox) { ChosenIsSelection(allTilePaths, bbox); }
    return Ok(tilePaths);
  }

  function FirstCol(level: nat, bbox: Bbox): int requires level <= 2 { Ceil((bbox.minX + 180.0) / SizeOf(level)) - 1 }
  function LastCol(level: nat, bbox: Bbox): int requires level <= 2 { ((bbox.maxX + 180.0) / SizeOf(level)).Floor }
  function FirstRow(level: nat, bbox: Bbox): int requires level <= 2 { Ceil((bbox.minY + 90.0) / SizeOf(level)) - 1 }
  function LastRow(level: nat, bbox: Bbox): int requires level <= 2 { ((bbox.maxY + 90.0) / SizeOf(level)).Floor }

  /** On each level the tiles chosen are a rectangle of columns and rows. */
  lemma SelectedIsRectangle(level: nat, col: int, row: int, bbox: Bbox)
    requires level <= 2 && IsBox(bbox)
    ensures Meet(BoxOf(level, col, row), bbox)
       <==> FirstCol(level, bbox) <= col <= LastCol(level, bbox) && FirstRow(level, bbox) <= row <= LastRow(level, bbox)
  {
    SelectedIffMeets(BoxOf(level, col, row), bbox);
  }

  /** The cells of a level's grid that are chosen. */
  ghost function SelectedCells(level: nat, bbox: Bbox): set<(int, int)>
    requires level <= 2
  {
    set c, r | 0 <= c < Columns(level) && 0 <= r < Rows(level) && Meet(BoxOf(level, c, r), bbox) :: (c, r)
  }

  lemma {:induction false} RectangleSize(c0: int, c1: int, r0: int, r1: int, cells: set<(int, int)>)
    requires c0 <= c1 + 1 && r0 <= r1 + 1
    requires forall cell | cell in cells :: c0 <= cell.0 <= c1 && r0 <= cell.1 <= r1
    ensures |cells| <= (c1 - c0 + 1) * (r1 - r0 + 1)
    decreases c1 - c0 + 1
  {
    if c0 == c1 + 1 {
      assert cells == {};
    } else {
      var column, rest := set cell | cell in cells && cell.0 == c1, set cell | cell in cells && cell.0 != c1;
      ColumnSize(c1, r0, r1, column);
      RectangleSize(c0, c1 - 1, r0, r1, rest);
      assert cells == column + rest;
      assert (c1 - c0 + 1) * (r1 - r0 + 1) == (c1 - c0) * (r1 - r0 + 1) + (r1 - r0 + 1);
    }
  }

  lemma {:induction false} ColumnSize(c: int, r0: int, r1: int, cells: set<(int, int)>)
    requires r0 <= r1 + 1
    requires forall cell | cell in cells :: cell.0 == c && r0 <= cell.1 <= r1
    ensures |cells| <= r1 - r0 + 1
    decreases r1 - r0 + 1
  {
    if r0 == r1 + 1 {
      assert cells == {};
    } else {
      var rest := cells - {(c, r1)};
      ColumnSize(c, r0, r1 - 1, rest);
      assert cells <= rest + {(c, r1)};
    }
  }

  /** So many edges of a grid of this size an interval can meet. */
  lemma EdgesMet(lo: real, hi: real, s: real)
    requires lo <= hi && s > 0.0
    ensures (hi / s).Floor - (Ceil(lo / s) - 1) + 1 <= ((hi - lo) / s).Floor + 2
    ensures Ceil(lo / s) - 1 <= (hi / s).Floor + 1
  {
    assert hi / s - lo / s == (hi - lo) / s;
  }

  /** At most (w/s + 2) * (h/s + 2) tiles of a level are chosen, rounded down, for a bbox of width w and height h. */
  lemma SelectionIsSmall(level: nat, bbox: Bbox)
    requires level <= 2 && IsBox(bbox)
    ensures var s := SizeOf(level);
            |SelectedCells(level, bbox)|
            <= (((bbox.maxX - bbox.minX) / s).Floor + 2) * (((bbox.maxY - bbox.minY) / s).Floor + 2)
  {
    var s := SizeOf(level);
    var c0, c1, r0, r1 := FirstCol(level, bbox), LastCol(level, bbox), FirstRow(level, bbox), LastRow(level, bbox);
    forall cell | cell in SelectedCells(level, bbox) ensures c0 <= cell.0 <= c1 && r0 <= cell.1 <= r1 {
      SelectedIsRectangle(level, cell.0, cell.1, bbox);
    }
    EdgesMet(bbox.minX + 180.0, bbox.maxX + 180.0, s);
    EdgesMet(bbox.minY + 90.0, bbox.maxY + 90.0, s);
    RectangleSize(c0, c1, r0, r1, SelectedCells(level, bbox));
    LargerProduct(c1 - c0 + 1, r1 - r0 + 1, ((bbox.maxX - bbox.minX) / s).Floor + 2,
                  ((bbox.maxY - bbox.minY) / s).Floor + 2);
  }

  lemma LargerProduct(a: int, b: int, c: int, d: int)
    requires 0 <= a <= c && 0 <= b <= d
    ensures a * b <= c * d
  {
    assert a * b <= c * b;
    assert c * b <= c * d;
  }

  /** What `split_bbox` lets through. */
  predicate OnGlobe(b: Bbox) {
    -180.0 <= b.minX < b.maxX <= 180.0 && -90.0 <= b.minY < b.maxY <= 90.0
  }

  /** The tiles chosen on a level leave no point of the bbox out. */
  lemma SelectedCellsCover(level: nat, bbox: Bbox, x: real, y: real)
    requires level <= 2 && OnGlobe(bbox) && Inside(x, y, bbox)
    ensures exists c, r :: (c, r) in SelectedCells(level, bbox) && Inside(x, y, BoxOf(level, c, r))
  {
    var c := Min(((x + 180.0) / SizeOf(level)).Floor, Columns(level) - 1);
    var r := Min(((y + 90.0) / SizeOf(level)).Floor, Rows(level) - 1);
    assert Inside(x, y, BoxOf(level, c, r));
    assert (c, r) in SelectedCells(level, bbox);
  }

  /** Given all the tiles of a level, the ones chosen from them cover the bbox. */
  lemma SelectionCovers(allTilePaths: seq<string>, level: nat, bbox: Bbox, x: real, y: real)
    requires level <= 2 && OnGlobe(bbox) && Inside(x, y, bbox)
    requires forall c: nat, r: nat | InGrid(level, c, r) :: TilePath(level, c, r) in allTilePaths
    ensures exists path | path in Selection(allTilePaths, bbox) :: Inside(x, y, GetTileBbox(path).value)
  {
    hide TilePath, GetTileBbox;
    SelectedCellsCover(level, bbox, x, y);
    var c, r :| (c, r) in SelectedCells(level, bbox) && Inside(x, y, BoxOf(level, c, r));
    ParsesCell(level, c, r);
    assert TilePath(level, c, r) in Selection(allTilePaths, bbox);
  }

  lemma AncestorMeets(level: nat, col: int, row: int, coarser: nat, bbox: Bbox)
    requires coarser <= level <= 2 && InGrid(level, col, row)
    ensures Meet(BoxOf(level, col, row), bbox) ==>
              Meet(BoxOf(coarser, Coarser(col, level - coarser), Coarser(row, level - coarser)), bbox)
  {
    var c, r := Coarser(col, level - coarser), Coarser(row, level - coarser);
    EachTileHasOneAncestor(level, col, row, coarser);
    assert LiesWithin(level, col, row, coarser, c, r);
    if Meet(BoxOf(level, col, row), bbox) {
      var x, y :| Inside(x, y, BoxOf(level, col, row)) && Inside(x, y, bbox);
      assert Inside(x, y, BoxOf(coarser, c, r));
    }
  }

  /**
   * With a tile, the tiles it lies in on every coarser level are chosen too, each if it is among
   * the input, whatever else is.
   */
  lemma AncestorIsSelected(allTilePaths: seq<string>, bbox: Bbox, level: nat, col: nat, row: nat, coarser: nat)
    requires coarser <= level <= 2 && InGrid(level, col, row)
    ensures var c, r := Coarser(col, level - coarser), Coarser(row, level - coarser);
            && InGrid(coarser, c, r)
            && (TilePath(level, col, row) in Selection(allTilePaths, bbox)
                && TilePath(coarser, c, r) in allTilePaths ==>
                  TilePath(coarser, c, r) in Selection(allTilePaths, bbox))
  {
    hide TilePath, GetTileBbox;
    EachTileHasOneAncestor(level, col, row, coarser);
    ParsesCell(level, col, row);
    ParsesCell(coarser, Coarser(col, level - coarser), Coarser(row, level - coarser));
    AncestorMeets(level, col, row, coarser, bbox);
  }

  /** In particular the tile it lies in on the next coarser level. */
  lemma ParentIsSelected(allTilePaths: seq<string>, bbox: Bbox, level: nat, col: nat, row: nat)
    requires 1 <= level <= 2 && InGrid(level, col, row)
    ensures TilePath(level, col, row) in Selection(allTilePaths, bbox)
            && TilePath(level - 1, col / 4, row / 4) in allTilePaths ==>
              TilePath(level - 1, col / 4, row / 4) in Selection(allTilePaths, bbox)
  {
    hide TilePath, Selection;
    assert Coarser(col, 1) == Coarser(col / 4, 0) && Coarser(row, 1) == Coarser(row / 4, 0);
    AncestorIsSelected(allTilePaths, bbox, level, col, row, level - 1);
  }
}
