// Reading a `.lms` landmark file: one point per line, the two coordinates
// separated by a single space (inference.py, inference_improved.py,
// datasetsss.py and the generated inference scripts).

module Landmarks {
  import opened Wrappers
  import PyText

  datatype Point = Point(x: int, y: int)

  /** `np.array([tok], dtype=np.float32)` followed by the `np.int32` cast: the
    * coordinate a token denotes, or `None` when it is not a number. Float
    * parsing itself is not modelled; the scripts receive it as a parameter. */
  type CoordParser = string -> Option<int>

  /** `line.split(" ")`: every single space separates, so "1  2" has three tokens. */
  function Tokens(line: string): seq<string> {
    PyText.SplitWhere(line, c => c == ' ')
  }

  function Prepend(pts: seq<Point>, r: Result<seq<Point>>): Result<seq<Point>> {
    match r
    case Ok(rest) => Ok(pts + rest)
    case Err(e) => Err(e)
  }

  lemma PrependNil(r: Result<seq<Point>>)
    ensures Prepend([], r) == r
  {
    if r.Ok? {
      assert [] + r.value == r.value;
    }
  }

  lemma PrependTwice(a: seq<Point>, b: seq<Point>, r: Result<seq<Point>>)
    ensures Prepend(a, Prepend(b, r)) == Prepend(a + b, r)
  {
    if r.Ok? {
      assert a + (b + r.value) == (a + b) + r.value;
    }
  }

  const FloatError := ValueError("could not convert string to float")

  /** The points of a landmark file, in line order. Lines that do not split
    * into exactly two tokens are ignored. A two-token line that does not
    * parse is skipped when `lenient` (inference_improved.py) and aborts the
    * read otherwise (inference.py, datasetsss.py, the generated scripts). */
  function ParseLines(lines: seq<string>, parse: CoordParser, lenient: bool): Result<seq<Point>>
    decreases |lines|
  {
    if lines == [] then Ok([])
    else
      var t := Tokens(lines[0]);
      var rest := ParseLines(lines[1..], parse, lenient);
      if |t| != 2 then rest
      else if parse(t[0]).Some? && parse(t[1]).Some? then
        Prepend([Point(parse(t[0]).value, parse(t[1]).value)], rest)
      else if lenient then rest
      else Err(FloatError)
  }

  /** The reading loop of the scripts: `lms_list.append` per accepted line. */
  method ReadLandmarks(lines: seq<string>, parse: CoordParser, lenient: bool)
    returns (r: Result<seq<Point>>)
    ensures r == ParseLines(lines, parse, lenient)
  {
    var lmsList: seq<Point> := [];
    assert lines[0..] == lines;
    PrependNil(ParseLines(lines, parse, lenient));
    for i := 0 to |lines|
      invariant ParseLines(lines, parse, lenient) == Prepend(lmsList, ParseLines(lines[i..], parse, lenient))
    {
      assert lines[i..][1..] == lines[i + 1..];
      assert lines[i..][0] == lines[i];
      var arr := Tokens(lines[i]);
      if |arr| != 2 {
        continue;
      }
      var x, y := parse(arr[0]), parse(arr[1]);
      if x.Some? && y.Some? {
        PrependTwice(lmsList, [Point(x.value, y.value)], ParseLines(lines[i + 1..], parse, lenient));
        lmsList := lmsList + [Point(x.value, y.value)];
      } else if lenient {
        continue;
      } else {
        return Err(FloatError);
      }
    }
    assert lines[|lines|..] == [];
    assert lmsList + [] == lmsList;
    r := Ok(lmsList);
  }

  /** Number of lines that split into exactly two tokens. */
  function TwoTokenLines(lines: seq<string>): nat
    decreases |lines|
  {
    if lines == [] then 0
    else (if |Tokens(lines[0])| == 2 then 1 else 0) + TwoTokenLines(lines[1..])
  }

  /** At most one point per two-token line; when the strict read succeeds
    * every two-token line became a point, and the lenient read agrees. */
  lemma {:induction false} ParseLinesCount(lines: seq<string>, parse: CoordParser)
    ensures ParseLines(lines, parse, true).Ok?
    ensures |ParseLines(lines, parse, true).value| <= TwoTokenLines(lines)
    ensures ParseLines(lines, parse, false).Ok? ==>
      ParseLines(lines, parse, false) == ParseLines(lines, parse, true)
      && |ParseLines(lines, parse, false).value| == TwoTokenLines(lines)
    decreases |lines|
  {
    if lines != [] {
      ParseLinesCount(lines[1..], parse);
    }
  }

  /** The points the lenient read keeps; it never fails. */
  function LenientPoints(lines: seq<string>, parse: CoordParser): (pts: seq<Point>)
    ensures ParseLines(lines, parse, true) == Ok(pts)
  {
    ParseLinesCount(lines, parse);
    ParseLines(lines, parse, true).value
  }

  /** A line with one space-free token on each side of a single space is read
    * as one point, whatever the surrounding lines. */
  lemma TwoTokens(a: string, b: string)
    requires ' ' !in a && ' ' !in b
    ensures Tokens(a + " " + b) == [a, b]
  {
    SplitNoSep(a + " " + b, a, b);
  }

  lemma {:induction false} SplitNoSep(s: string, a: string, b: string)
    requires ' ' !in a && ' ' !in b && s == a + " " + b
    ensures PyText.SplitWhere(s, c => c == ' ') == [a, b]
    decreases |a|
  {
    if a == [] {
      assert s[1..] == b;
      NoSepSplit(b);
    } else {
      assert s[1..] == a[1..] + " " + b;
      SplitNoSep(s[1..], a[1..], b);
      assert [a[0]] + a[1..] == a;
    }
  }

  lemma {:induction false} NoSepSplit(b: string)
    requires ' ' !in b
    ensures PyText.SplitWhere(b, c => c == ' ') == [b]
    decreases |b|
  {
    if b != [] {
      NoSepSplit(b[1..]);
      assert [b[0]] + b[1..] == b;
    }
  }
}
