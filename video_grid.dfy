/** components/VideoGrid.tsx: the grid layout chosen for the number of tiles, and which
    tile is handed the local camera stream. */
module VideoGrid {
  import opened Wrappers
  import opened Types
  import opened Roster

  predicate EndsWith(s: string, suffix: string)
  {
    |suffix| <= |s| && s[|s| - |suffix|..] == suffix
  }

  /** `getGridClass`: the CSS classes for `count` tiles. */
  function GridClass(count: int): (cls: string)
    ensures |cls| > |"grid-cols-"| && cls[..|"grid-cols-"|] == "grid-cols-"
    ensures EndsWith(cls, " max-w-4xl") <==> count <= 1
    ensures EndsWith(cls, " max-w-6xl") <==> 2 <= count <= 4
    ensures EndsWith(cls, " max-w-full") <==> 5 <= count
  {
    if count <= 1 then "grid-cols-1 max-w-4xl"
    else if count <= 4 then "grid-cols-2 max-w-6xl"
    else if count <= 6 then "grid-cols-3 max-w-full"
    else if count <= 8 then "grid-cols-4 max-w-full"
    else "grid-cols-4 max-w-full"
  }

  /** The number of columns a `grid-cols-<d>` class asks for: the digit after the prefix. */
  function Columns(cls: string): (n: nat)
    requires |cls| > |"grid-cols-"|
    ensures '0' <= cls[|"grid-cols-"|] <= '9' ==> n == cls[|"grid-cols-"|] as int - '0' as int
  {
    var d := cls[|"grid-cols-"|];
    if '0' <= d <= '9' then d as int - '0' as int else 0
  }

  /** The column bands: one tile or none gives 1 column, 2-4 give 2, 5-6 give 3, 7 or more give 4. */
  lemma ColumnBands(count: int)
    ensures var k := Columns(GridClass(count));
            && (count <= 1 ==> k == 1)
            && (2 <= count <= 4 ==> k == 2)
            && (5 <= count <= 6 ==> k == 3)
            && (7 <= count ==> k == 4)
  {
  }

  /** More tiles never mean fewer columns, and there are never more than four. */
  lemma ColumnsMonotone(a: int, b: int)
    requires a <= b
    ensures 1 <= Columns(GridClass(a)) <= Columns(GridClass(b)) <= 4
  {
    ColumnBands(a);
    ColumnBands(b);
  }

  /** The `stream` prop of each tile: the local stream for self tiles, none for the others. */
  function TileStreams<S(==)>(ps: seq<Participant>, localStream: Option<S>): (r: seq<Option<S>>)
    ensures |r| == |ps|
    ensures forall i :: 0 <= i < |ps| ==> (ps[i].isSelf ==> r[i] == localStream) && (!ps[i].isSelf ==> r[i] == None)
  {
    seq(|ps|, i requires 0 <= i < |ps| => if ps[i].isSelf then localStream else None)
  }

  /** With at most one self tile, at most one tile shows the local stream, and it is the self tile. */
  lemma OneTileShowsLocalStream<S>(ps: seq<Participant>, localStream: Option<S>)
    requires CountSelf(ps) <= 1
    ensures var r := TileStreams(ps, localStream);
            forall i, j :: 0 <= i < |ps| && 0 <= j < |ps| && r[i].Some? && r[j].Some? ==>
                             i == j && ps[i].isSelf
  {
    AtMostOneSelf(ps);
  }
}
