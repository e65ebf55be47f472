/**
 * `show_servers_status(serveri)` (Presentation/ServerStatusShow/ServerStatusUI.py):
 * lays out at most ten servers as text, in rows of 4, 3, 2 and 1 blocks.
 * A block is three fixed art lines followed by the first 8 characters of the
 * server id, the first word of its name and "<n> faults", each centred to
 * the width of the art. The final `print(result)` is not modelled.
 */
module ServerStatusUI {
  import opened Values
  import opened ServerModel

  // ---------------------------------------------------------------------------
  // The Python string operations the layout uses

  /** The characters at which `str.splitlines()` breaks a line. */
  predicate IsLineBoundary(c: char) {
    c == '\n' || c == '\r' || c == '\U{0B}' || c == '\U{0C}' || c == '\U{1C}' || c == '\U{1D}'
    || c == '\U{1E}' || c == '\U{85}' || c == '\U{2028}' || c == '\U{2029}'
  }

  predicate NoLineBoundary(s: string) {
    forall i :: 0 <= i < |s| ==> !IsLineBoundary(s[i])
  }

  /** The index of the first line boundary in `s`, or `|s|`. */
  function FirstBoundary(s: string): (k: nat)
    ensures k <= |s|
    ensures k < |s| ==> IsLineBoundary(s[k])
    ensures forall i :: 0 <= i < k ==> !IsLineBoundary(s[i])
    decreases |s|
  {
    if s == [] || IsLineBoundary(s[0]) then 0 else FirstBoundary(s[1..]) + 1
  }

  /**
   * `s.splitlines()`: the pieces between line boundaries, where "\r\n" counts
   * as one boundary; a boundary at the very end does not start a new line,
   * and the empty string has no lines at all.
   */
  function SplitLines(s: string): (lines: seq<string>)
    ensures forall k :: 0 <= k < |lines| ==> NoLineBoundary(lines[k])
    ensures s != [] ==> lines != []
    decreases |s|
  {
    if s == [] then []
    else
      var k := FirstBoundary(s);
      if k == |s| then [s]
      else
        var next := if s[k] == '\r' && k + 1 < |s| && s[k + 1] == '\n' then k + 2 else k + 1;
        [s[..k]] + SplitLines(s[next..])
  }

  /** A boundary-free line followed by "\n" and more text splits off as the first line. */
  lemma SplitLinesCons(line: string, rest: string)
    requires NoLineBoundary(line)
    ensures SplitLines(line + "\n" + rest) == [line] + SplitLines(rest)
  {
    var s := line + "\n" + rest;
    FirstBoundaryOf(line, "\n" + rest);
    ConcatAssoc(line, "\n", rest);
    assert s[..|line|] == line;
    assert s[|line| + 1..] == rest;
  }

  lemma {:induction false} FirstBoundaryOf(line: string, rest: string)
    requires NoLineBoundary(line)
    requires rest == [] || IsLineBoundary(rest[0])
    ensures FirstBoundary(line + rest) == |line|
    decreases |line|
  {
    if line == [] {
      assert line + rest == rest;
    } else {
      assert (line + rest)[1..] == line[1..] + rest;
      FirstBoundaryOf(line[1..], rest);
    }
  }

  /** A non-empty boundary-free text is one line. */
  lemma SplitLinesSingle(line: string)
    requires line != [] && NoLineBoundary(line)
    ensures SplitLines(line) == [line]
  {
    FirstBoundaryOf(line, []);
    assert line + [] == line;
  }

  /** Splitting is done piecewise at a point just after a "\n". */
  lemma {:induction false} SplitLinesAppend(a: string, b: string)
    requires a == [] || a[|a| - 1] == '\n'
    ensures SplitLines(a + b) == SplitLines(a) + SplitLines(b)
    decreases |a|
  {
    if a == [] {
      assert a + b == b;
    } else {
      var k := FirstBoundary(a);
      assert k < |a|;
      FirstBoundaryPrefix(a, b);
      var next := if a[k] == '\r' && k + 1 < |a| && a[k + 1] == '\n' then k + 2 else k + 1;
      assert (a + b)[k] == a[k];
      assert k + 1 < |a| ==> (a + b)[k + 1] == a[k + 1];
      assert next <= |a|;
      assert (a + b)[..k] == a[..k];
      assert (a + b)[next..] == a[next..] + b;
      SplitLinesAppend(a[next..], b);
      ConcatAssoc([a[..k]], SplitLines(a[next..]), SplitLines(b));
    }
  }

  lemma FirstBoundaryPrefix(a: string, b: string)
    requires FirstBoundary(a) < |a|
    ensures FirstBoundary(a + b) == FirstBoundary(a)
  {
    var k := FirstBoundary(a);
    FirstBoundaryOf(a[..k], a[k..] + b);
    assert a[..k] + (a[k..] + b) == a + b;
  }

  /** `sep.join(parts)`. */
  function Join(sep: string, parts: seq<string>): (r: string)
    ensures parts == [] ==> r == []
    ensures |parts| == 1 ==> r == parts[0]
    decreases |parts|
  {
    if parts == [] then []
    else if |parts| == 1 then parts[0]
    else parts[0] + sep + Join(sep, parts[1..])
  }

  /** A join starts with the first part, ends with the last, and holds a separator between each pair of parts. */
  lemma {:induction false} JoinEnds(sep: string, parts: seq<string>)
    requires parts != []
    ensures var r := Join(sep, parts);
      |parts[0]| <= |r| && r[..|parts[0]|] == parts[0] &&
      |parts[|parts| - 1]| <= |r| && r[|r| - |parts[|parts| - 1]|..] == parts[|parts| - 1] &&
      |r| >= (|parts| - 1) * |sep|
    decreases |parts|
  {
    if |parts| > 1 {
      var rest := Join(sep, parts[1..]);
      JoinEnds(sep, parts[1..]);
      var r := parts[0] + sep + rest;
      assert Join(sep, parts) == r;
      assert r[..|parts[0]|] == parts[0];
      assert parts[1..][|parts[1..]| - 1] == parts[|parts| - 1];
      assert r[|r| - |parts[|parts| - 1]|..] == rest[|rest| - |parts[|parts| - 1]|..];
    }
  }

  /** Joining boundary-free lines with "\n" and splitting again gives the lines back, provided the last one is not empty. */
  lemma {:induction false} SplitLinesOfJoin(parts: seq<string>)
    requires forall k :: 0 <= k < |parts| ==> NoLineBoundary(parts[k])
    requires parts == [] || parts[|parts| - 1] != []
    ensures SplitLines(Join("\n", parts)) == parts
    decreases |parts|
  {
    if |parts| == 1 {
      SplitLinesSingle(parts[0]);
    } else if |parts| > 1 {
      var rest := parts[1..];
      forall k | 0 <= k < |rest| ensures NoLineBoundary(rest[k]) {
        assert rest[k] == parts[k + 1];
      }
      assert rest[|rest| - 1] == parts[|parts| - 1];
      assert Join("\n", parts) == parts[0] + "\n" + Join("\n", rest);
      SplitLinesOfJoin(rest);
      SplitLinesCons(parts[0], Join("\n", rest));
      assert [parts[0]] + rest == parts;
    }
  }

  /** A separator free of line boundaries joins boundary-free texts into one boundary-free text. */
  lemma {:induction false} JoinNoBoundary(sep: string, parts: seq<string>)
    requires NoLineBoundary(sep)
    requires forall k :: 0 <= k < |parts| ==> NoLineBoundary(parts[k])
    ensures NoLineBoundary(Join(sep, parts))
    decreases |parts|
  {
    if |parts| > 1 {
      JoinNoBoundary(sep, parts[1..]);
      var t := Join(sep, parts[1..]);
      var r := parts[0] + sep + t;
      forall i | 0 <= i < |r| ensures !IsLineBoundary(r[i]) {
        if i < |parts[0]| {
          assert r[i] == parts[0][i];
        } else if i < |parts[0]| + |sep| {
          assert r[i] == sep[i - |parts[0]|];
        } else {
          assert r[i] == t[i - |parts[0]| - |sep|];
        }
      }
    }
  }

  function Spaces(n: nat): (r: string)
    ensures |r| == n && forall i :: 0 <= i < n ==> r[i] == ' '
  {
    seq(n, _ => ' ')
  }

  /** CPython's left margin for `center`: half the padding, rounded up only when the padding and the width are both odd. */
  function CenterLeft(len: nat, width: nat): nat
    requires len < width
  {
    (width - len) / 2 + (if (width - len) % 2 == 1 && width % 2 == 1 then 1 else 0)
  }

  /** `s.center(width)`: unchanged when it is at least `width` long, otherwise padded with spaces on both sides to `width`. */
  function Center(s: string, width: nat): (r: string)
    ensures |r| == if |s| >= width then |s| else width
    ensures |s| >= width ==> r == s
    ensures |s| < width ==> r[CenterLeft(|s|, width)..CenterLeft(|s|, width) + |s|] == s
    ensures |s| < width ==> forall i :: 0 <= i < |r| && !(CenterLeft(|s|, width) <= i < CenterLeft(|s|, width) + |s|) ==> r[i] == ' '
  {
    if |s| >= width then s
    else
      var left := CenterLeft(|s|, width);
      Spaces(left) + s + Spaces(width - |s| - left)
  }

  /** The two margins differ by at most one; with an even width the smaller one is on the left. */
  lemma CenterMargins(len: nat, width: nat)
    requires len < width
    ensures var left := CenterLeft(len, width);
      var right := width - len - left;
      left + right == width - len &&
      (width % 2 == 0 ==> left == (width - len) / 2 && left <= right <= left + 1) &&
      (width % 2 == 1 ==> right <= left <= right + 1)
  {
  }

  /** Centring adds no line boundary. */
  lemma CenterNoBoundary(s: string, width: nat)
    requires NoLineBoundary(s)
    ensures NoLineBoundary(Center(s, width))
  {
    var r := Center(s, width);
    if |s| < width {
      var left := CenterLeft(|s|, width);
      forall i | 0 <= i < |r| ensures !IsLineBoundary(r[i]) {
        if left <= i < left + |s| {
          assert r[i] == r[left..left + |s|][i - left];
        }
      }
    }
  }

  /** `s[0:8]`. */
  function IdPrefix(s: string): (r: string)
    ensures |r| == (if |s| < 8 then |s| else 8) && r <= s
  {
    s[..if |s| < 8 then |s| else 8]
  }

  /** `s.split(' ')[0]`: the text before the first space, or all of it. */
  function FirstWord(s: string): (r: string)
    ensures r <= s
    ensures ' ' !in r
    ensures |r| < |s| ==> s[|r|] == ' '
    decreases |s|
  {
    if s == [] || s[0] == ' ' then [] else [s[0]] + FirstWord(s[1..])
  }

  // ---------------------------------------------------------------------------
  // Blocks

  const ArtTop: string := " ---------- "
  const ArtLabel: string := " | SERVER | "

  /** `ascii_server`. */
  const AsciiServer: string := ArtTop + "\n" + ArtLabel + "\n" + ArtTop + "\n"

  /** `row_layouts`: the capacity of each row, top to bottom. */
  const RowLayouts: seq<nat> := [4, 3, 2, 1]

  /** What stands in for a line of a block that has fewer lines than the row's longest; 10 spaces, two fewer than the art is wide. */
  const Padding: string := "          "

  /** `max_width`: the length of the first line of the art. */
  lemma ArtWidth()
    ensures SplitLines(AsciiServer) == [ArtTop, ArtLabel, ArtTop]
    ensures |SplitLines(AsciiServer)[0]| == 12
  {
    ArtShape();
    SplitLinesCons(ArtTop, ArtLabel + "\n" + (ArtTop + "\n"));
    SplitLinesCons(ArtLabel, ArtTop + "\n");
    SplitLineEnded(ArtTop);
  }

  lemma ArtShape()
    ensures NoLineBoundary(ArtTop) && NoLineBoundary(ArtLabel) && |ArtTop| == 12
    ensures AsciiServer == ArtTop + "\n" + (ArtLabel + "\n" + (ArtTop + "\n"))
  {
  }

  /** The third info line. */
  function FaultLine(count: nat): string {
    NatToString(count) + " faults"
  }

  /** The three info lines of a server, as the source lists them. */
  function InfoLines(id: string, name: string, count: nat): seq<string> {
    [IdPrefix(id), FirstWord(name), FaultLine(count)]
  }

  /** `server_ascii` for a server with this id, name and ledger length: the art, then three lines at least as wide as it. */
  function BlockText(id: string, name: string, count: nat): (t: string)
    ensures AsciiServer <= t
    ensures |t| >= |AsciiServer| + 3 * 12 + 2
  {
    var info := InfoLines(id, name, count);
    var centred := [Center(info[0], 12), Center(info[1], 12), Center(info[2], 12)];
    assert Join("\n", centred) == centred[0] + "\n" + (centred[1] + "\n" + centred[2]);
    AsciiServer + Join("\n", centred)
  }

  function Block(s: Server): string
    reads s
  {
    BlockText(s.id, s.name, |s.faults|)
  }

  /** The block of every server, in list order. */
  function Blocks(servers: seq<Server>): (bs: seq<string>)
    reads servers
    ensures |bs| == |servers|
    ensures forall k :: 0 <= k < |servers| ==> bs[k] == Block(servers[k])
  {
    seq(|servers|, k reads servers requires 0 <= k < |servers| => Block(servers[k]))
  }

  /**
   * When the id prefix and the first word hold no line boundary, a block is
   * six lines: the three art lines and the three info lines, each centred to 12.
   */
  lemma BlockLines(id: string, name: string, count: nat)
    requires NoLineBoundary(IdPrefix(id)) && NoLineBoundary(FirstWord(name))
    ensures SplitLines(BlockText(id, name, count))
         == [ArtTop, ArtLabel, ArtTop, Center(IdPrefix(id), 12), Center(FirstWord(name), 12), Center(FaultLine(count), 12)]
  {
    var info := [Center(IdPrefix(id), 12), Center(FirstWord(name), 12), Center(FaultLine(count), 12)];
    InfoLinesSplit(id, name, count);
    assert BlockText(id, name, count) == AsciiServer + Join("\n", info);
    SplitAfterArt(Join("\n", info));
  }

  /** The art splits into its three lines, whatever follows it. */
  lemma SplitAfterArt(t: string)
    ensures SplitLines(AsciiServer + t) == [ArtTop, ArtLabel, ArtTop] + SplitLines(t)
  {
    ArtWidth();
    ArtShape();
    SplitLinesAppend(AsciiServer, t);
  }

  /** The centred info lines, joined by "\n", split back into themselves. */
  lemma InfoLinesSplit(id: string, name: string, count: nat)
    requires NoLineBoundary(IdPrefix(id)) && NoLineBoundary(FirstWord(name))
    ensures var info := [Center(IdPrefix(id), 12), Center(FirstWord(name), 12), Center(FaultLine(count), 12)];
      SplitLines(Join("\n", info)) == info
  {
    var info := [Center(IdPrefix(id), 12), Center(FirstWord(name), 12), Center(FaultLine(count), 12)];
    FaultLineNoBoundary(count);
    CenterNoBoundary(IdPrefix(id), 12);
    CenterNoBoundary(FirstWord(name), 12);
    CenterNoBoundary(FaultLine(count), 12);
    assert |info[2]| >= 12;
    SplitLinesOfJoin(info);
  }

  lemma FaultLineNoBoundary(count: nat)
    ensures NoLineBoundary(FaultLine(count))
  {
    var f := FaultLine(count);
    forall i | 0 <= i < |f| ensures !IsLineBoundary(f[i]) {
      if i < |NatToString(count)| {
        assert f[i] == NatToString(count)[i];
      }
    }
  }

  // ---------------------------------------------------------------------------
  // Rows

  /** The text a block contributes to line `k` of its row. */
  function Cell(block: string, k: nat): (r: string)
    ensures NoLineBoundary(r)
  {
    var lines := SplitLines(block);
    if k < |lines| then lines[k] else Padding
  }

  function Cells(row: seq<string>, k: nat): (cs: seq<string>)
    ensures |cs| == |row|
    ensures forall j :: 0 <= j < |row| ==> cs[j] == Cell(row[j], k)
  {
    seq(|row|, j requires 0 <= j < |row| => Cell(row[j], k))
  }

  /** Line `k` of a row, without its "\n": the blocks' cells joined by two spaces. */
  function RowText(row: seq<string>, k: nat): (r: string)
    ensures NoLineBoundary(r)
  {
    JoinNoBoundary("  ", Cells(row, k));
    Join("  ", Cells(row, k))
  }

  /** `max_lines`: the largest number of lines among the blocks of the row. */
  function MaxLines(row: seq<string>): (m: nat)
    ensures forall j :: 0 <= j < |row| ==> |SplitLines(row[j])| <= m
    ensures row != [] ==> exists j :: 0 <= j < |row| && |SplitLines(row[j])| == m
    ensures row == [] ==> m == 0
    decreases |row|
  {
    if row == [] then 0
    else
      var rest := MaxLines(row[1..]);
      assert forall j :: 1 <= j < |row| ==> row[j] == row[1..][j - 1];
      if |SplitLines(row[0])| >= rest then |SplitLines(row[0])| else rest
  }

  /** The first `m` lines of a row, each followed by "\n". */
  function RowLines(row: seq<string>, m: nat): string
    decreases m
  {
    if m == 0 then [] else RowLines(row, m - 1) + (RowText(row, m - 1) + "\n")
  }

  /** What one row adds to `result`: its lines, then an empty line. */
  function RenderRow(row: seq<string>): (r: string)
    ensures |r| >= MaxLines(row) + 1 && r[|r| - 1] == '\n'
  {
    RowLinesLength(row, MaxLines(row));
    RowLines(row, MaxLines(row)) + "\n"
  }

  /** Every line ends in "\n", so `m` lines take at least `m` characters. */
  lemma {:induction false} RowLinesLength(row: seq<string>, m: nat)
    ensures |RowLines(row, m)| >= m
    decreases m
  {
    if m > 0 {
      RowLinesLength(row, m - 1);
    }
  }

  /** The texts of lines 0 to m - 1 of a row. */
  function RowTexts(row: seq<string>, m: nat): (ts: seq<string>)
    ensures |ts| == m && forall k :: 0 <= k < m ==> ts[k] == RowText(row, k)
    decreases m
  {
    if m == 0 then [] else RowTexts(row, m - 1) + [RowText(row, m - 1)]
  }

  /** The lines of a rendered row are the joined cells of each line index, then one empty line. */
  lemma RenderRowLines(row: seq<string>)
    ensures SplitLines(RenderRow(row)) == RowTexts(row, MaxLines(row)) + [[]]
  {
    RowLinesSplit(row, MaxLines(row));
    SplitLinesAppend(RowLines(row, MaxLines(row)), "\n");
    assert SplitLines("\n") == [[]] by {
      SplitLinesCons([], []);
      assert [] + "\n" + [] == "\n";
    }
  }

  lemma {:induction false} RowLinesSplit(row: seq<string>, m: nat)
    ensures RowLines(row, m) == [] || RowLines(row, m)[|RowLines(row, m)| - 1] == '\n'
    ensures SplitLines(RowLines(row, m)) == RowTexts(row, m)
    decreases m
  {
    if m > 0 {
      var before := RowLines(row, m - 1);
      var line := RowText(row, m - 1);
      RowLinesSplit(row, m - 1);
      assert RowLines(row, m) == before + (line + "\n");
      SplitLinesAppend(before, line + "\n");
      SplitLineEnded(line);
      assert RowTexts(row, m) == RowTexts(row, m - 1) + [line];
    }
  }

  /** A boundary-free line ended by "\n" is that one line. */
  lemma SplitLineEnded(line: string)
    requires NoLineBoundary(line)
    ensures SplitLines(line + "\n") == [line]
  {
    SplitLinesCons(line, []);
    assert line + "\n" + [] == line + "\n";
  }

  /** In a row of six-line blocks every line index shows a line of each block, and there are six of them. */
  lemma UniformRow(row: seq<string>)
    requires row != []
    requires forall j :: 0 <= j < |row| ==> |SplitLines(row[j])| == 6
    ensures MaxLines(row) == 6
    ensures forall k, j :: 0 <= k < 6 && 0 <= j < |row| ==> Cells(row, k)[j] == SplitLines(row[j])[k]
  {
  }

  // ---------------------------------------------------------------------------
  // The layout

  /** The offset of the first server of row `r`: the capacities of the rows above it added up. */
  function RowStart(r: nat): nat
    requires r <= |RowLayouts|
    decreases r
  {
    if r == 0 then 0 else RowStart(r - 1) + RowLayouts[r - 1]
  }

  /** The offsets of the four rows, and the end of the last. */
  lemma RowStarts()
    ensures RowStart(0) == 0 && RowStart(1) == 4 && RowStart(2) == 7 && RowStart(3) == 9 && RowStart(4) == 10
  {
  }

  function Min(a: nat, b: nat): nat {
    if a <= b then a else b
  }

  /** The blocks that row `r` holds. */
  function RowBlocks(blocks: seq<string>, r: nat): seq<string>
    requires r < |RowLayouts| && RowStart(r) <= |blocks|
  {
    blocks[RowStart(r)..Min(RowStart(r + 1), |blocks|)]
  }

  /** `result` after the first `r` rows; a row whose first offset is past the end adds nothing. */
  function RenderedRows(blocks: seq<string>, r: nat): string
    requires r <= |RowLayouts|
  {
    if r == 0 then []
    else if RowStart(r - 1) < |blocks| then RenderedRows(blocks, r - 1) + RenderRow(RowBlocks(blocks, r - 1))
    else RenderedRows(blocks, r - 1)
  }

  /** The whole of `result` for these blocks: empty exactly when there are none. */
  function Layout(blocks: seq<string>): (r: string)
    ensures r == [] <==> blocks == []
  {
    if blocks == [] then
      RenderedRowsStable(blocks, 0, |RowLayouts|);
      RenderedRows(blocks, |RowLayouts|)
    else
      RowStarts();
      RenderedRowsGrow(blocks, 1, |RowLayouts|);
      RenderedRows(blocks, |RowLayouts|)
  }

  /** Later rows only append: the text so far never gets shorter. */
  lemma {:induction false} RenderedRowsGrow(blocks: seq<string>, r: nat, r2: nat)
    requires r <= r2 <= |RowLayouts|
    ensures |RenderedRows(blocks, r)| <= |RenderedRows(blocks, r2)|
    decreases r2
  {
    if r2 > r {
      RenderedRowsGrow(blocks, r, r2 - 1);
    }
  }

  /** Once the servers have run out, later rows add nothing. */
  lemma {:induction false} RenderedRowsStable(blocks: seq<string>, r: nat, r2: nat)
    requires r <= r2 <= |RowLayouts| && RowStart(r) >= |blocks|
    ensures RenderedRows(blocks, r2) == RenderedRows(blocks, r)
    decreases r2
  {
    if r2 > r {
      var p := r2 - 1;
      RowStartMonotone(r, p);
      assert !(RowStart(p) < |blocks|);
      assert RenderedRows(blocks, r2) == RenderedRows(blocks, p);
      RenderedRowsStable(blocks, r, p);
    }
  }

  lemma {:induction false} RowStartMonotone(r: nat, r2: nat)
    requires r <= r2 <= |RowLayouts|
    ensures RowStart(r) <= RowStart(r2)
    decreases r2
  {
    if r2 > r {
      RowStartMonotone(r, r2 - 1);
    }
  }

  /** With ten or more servers the rows hold servers 0-3, 4-6, 7-8 and 9, in that order. */
  lemma LayoutOfTen(blocks: seq<string>)
    requires |blocks| >= 10
    ensures Layout(blocks) == RenderRow(blocks[0..4]) + RenderRow(blocks[4..7]) + RenderRow(blocks[7..9]) + RenderRow(blocks[9..10])
  {
    RowStarts();
    assert RowBlocks(blocks, 0) == blocks[0..4];
    assert RowBlocks(blocks, 1) == blocks[4..7];
    assert RowBlocks(blocks, 2) == blocks[7..9];
    assert RowBlocks(blocks, 3) == blocks[9..10];
    assert RenderedRows(blocks, 1) == RenderRow(blocks[0..4]);
    assert RenderedRows(blocks, 2) == RenderRow(blocks[0..4]) + RenderRow(blocks[4..7]);
    assert RenderedRows(blocks, 3) == RenderRow(blocks[0..4]) + RenderRow(blocks[4..7]) + RenderRow(blocks[7..9]);
  }

  /** Only the first ten servers are shown: the rows have room for 4 + 3 + 2 + 1. */
  lemma LayoutFirstTen(blocks: seq<string>)
    requires |blocks| > 10
    ensures Layout(blocks) == Layout(blocks[..10])
  {
    RenderedRowsPrefix(blocks, 10, |RowLayouts|);
  }

  lemma {:induction false} RenderedRowsPrefix(blocks: seq<string>, n: nat, r: nat)
    requires r <= |RowLayouts| && RowStart(r) <= n <= |blocks|
    ensures RenderedRows(blocks, r) == RenderedRows(blocks[..n], r)
    decreases r
  {
    if r > 0 {
      assert RowLayouts[r - 1] > 0;
      RenderedRowsPrefix(blocks, n, r - 1);
      assert Min(RowStart(r), |blocks|) == RowStart(r) == Min(RowStart(r), n);
      SliceOfPrefix(blocks, n, RowStart(r - 1), RowStart(r));
    }
  }

  // ---------------------------------------------------------------------------
  // show_servers_status

  /**
   * Builds `result` as the source does: rows of at most 4, 3, 2 and 1
   * servers, taken in list order, each row emitting one text line per line
   * index of its tallest block and then an empty line. It reads the servers
   * and changes none of them.
   */
  method ShowServersStatus(serveri: seq<Server>) returns (result: string)
    ensures result == Layout(Blocks(serveri))
  {
    result := "";
    var serverIndex := 0;
    var rowNo := 0;
    while rowNo < |RowLayouts|
      invariant rowNo <= |RowLayouts|
      invariant serverIndex == Min(RowStart(rowNo), |serveri|)
      invariant result == RenderedRows(Blocks(serveri), rowNo)
    {
      if serverIndex >= |serveri| {
        LayoutDone(Blocks(serveri), rowNo, serverIndex, result);
        break;
      }
      result, serverIndex := DrawRow(serveri, rowNo, serverIndex, result);
      rowNo := rowNo + 1;
    }
  }

  /** Leaving the outer loop early: the rows not reached would have added nothing. */
  lemma LayoutDone(blocks: seq<string>, r: nat, index: nat, result: string)
    requires r <= |RowLayouts| && index == Min(RowStart(r), |blocks|) && index >= |blocks|
    requires result == RenderedRows(blocks, r)
    ensures result == Layout(blocks)
  {
    RenderedRowsStable(blocks, r, |RowLayouts|);
  }

  /** Drawing row `r` moves the index to the start of the next row. */
  lemma RowStep(blocks: seq<string>, r: nat, start: nat, row: seq<string>, next: nat)
    requires r < |RowLayouts| && start == Min(RowStart(r), |blocks|) && start < |blocks|
    requires next == Min(start + RowLayouts[r], |blocks|) && row == blocks[start..next]
    ensures next == Min(RowStart(r + 1), |blocks|)
    ensures RenderedRows(blocks, r + 1) == RenderedRows(blocks, r) + RenderRow(row)
  {
    assert RowStart(r + 1) == start + RowLayouts[r];
    assert row == RowBlocks(blocks, r);
  }

  /** One pass of the outer loop, `for row_size in row_layouts`: collects row `r` and draws it. */
  method DrawRow(serveri: seq<Server>, r: nat, start: nat, acc: string)
    returns (result: string, next: nat)
    requires r < |RowLayouts| && start == Min(RowStart(r), |serveri|) && start < |serveri|
    requires acc == RenderedRows(Blocks(serveri), r)
    ensures next == Min(RowStart(r + 1), |serveri|)
    ensures result == RenderedRows(Blocks(serveri), r + 1)
  {
    ghost var blocks := Blocks(serveri);
    var rowAsciiArt;
    rowAsciiArt, next := CollectRow(serveri, start, RowLayouts[r]);
    RowStep(blocks, r, start, rowAsciiArt, next);
    result := AppendRow(acc, rowAsciiArt);
  }

  /** The inner loop over one row: the blocks of the next `rowSize` servers, or of as many as are left. */
  method CollectRow(serveri: seq<Server>, start: nat, rowSize: nat) returns (rowAsciiArt: seq<string>, serverIndex: nat)
    requires start <= |serveri|
    ensures serverIndex == Min(start + rowSize, |serveri|)
    ensures rowAsciiArt == Blocks(serveri)[start..serverIndex]
  {
    rowAsciiArt := [];
    serverIndex := start;
    var i := 0;
    while i < rowSize
      invariant i <= rowSize
      invariant serverIndex == Min(start + i, |serveri|)
      invariant rowAsciiArt == Blocks(serveri)[start..serverIndex]
    {
      if serverIndex >= |serveri| {
        break;
      }
      var serverAscii := ServerAscii(serveri[serverIndex]);
      SliceExtend(Blocks(serveri), start, serverIndex);
      rowAsciiArt := rowAsciiArt + [serverAscii];
      serverIndex := serverIndex + 1;
      i := i + 1;
    }
  }

  /** The text the inner loop builds for one server: the art, then its three info lines centred. */
  method ServerAscii(server: Server) returns (serverAscii: string)
    ensures serverAscii == Block(server)
  {
    var infoLines := [IdPrefix(server.id), FirstWord(server.name), NatToString(|server.faults|) + " faults"];
    var maxWidth := |SplitLines(AsciiServer)[0]|;
    var centeredInfo := Join("\n", [Center(infoLines[0], maxWidth), Center(infoLines[1], maxWidth), Center(infoLines[2], maxWidth)]);
    serverAscii := AsciiServer + centeredInfo;
    ServerAsciiIsBlock(server.id, server.name, |server.faults|);
  }

  /** The loop over the line indices of one row, and the empty line after it. */
  method AppendRow(acc: string, rowAsciiArt: seq<string>) returns (result: string)
    ensures result == acc + RenderRow(rowAsciiArt)
  {
    result := acc;
    var maxLines := MaxLines(rowAsciiArt);
    var lineNum := 0;
    while lineNum < maxLines
      invariant lineNum <= maxLines
      invariant result == acc + RowLines(rowAsciiArt, lineNum)
    {
      var line := Join("  ", Cells(rowAsciiArt, lineNum));
      assert line == RowText(rowAsciiArt, lineNum);
      assert RowLines(rowAsciiArt, lineNum + 1) == RowLines(rowAsciiArt, lineNum) + (line + "\n");
      ConcatAssoc(acc, RowLines(rowAsciiArt, lineNum), line + "\n");
      result := result + (line + "\n");
      lineNum := lineNum + 1;
    }
    ConcatAssoc(acc, RowLines(rowAsciiArt, maxLines), "\n");
    result := result + "\n";
  }

  /** The block the inner loop computes for a server is its `BlockText`. */
  lemma ServerAsciiIsBlock(id: string, name: string, count: nat)
    ensures var maxWidth := |SplitLines(AsciiServer)[0]|;
      var infoLines := [IdPrefix(id), FirstWord(name), NatToString(count) + " faults"];
      AsciiServer + Join("\n", [Center(infoLines[0], maxWidth), Center(infoLines[1], maxWidth), Center(infoLines[2], maxWidth)])
        == BlockText(id, name, count)
  {
    ArtWidth();
  }

  lemma SliceExtend<T>(s: seq<T>, a: nat, b: nat)
    requires a <= b < |s|
    ensures s[a..b + 1] == s[a..b] + [s[b]]
  {
  }

  lemma SliceOfPrefix<T>(s: seq<T>, n: nat, a: nat, b: nat)
    requires a <= b <= n <= |s|
    ensures s[..n][a..b] == s[a..b]
  {
  }
}
