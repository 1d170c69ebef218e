// `pointsToSvgPath` of src/utils.ts: SVG path data made of one moveto and a
// lineto per further point (section 8.3 of SVG 1.1), built by appending to a
// string in a loop. Turning a number into text is the runtime's business: the
// model receives it as a function `fmt`, which never yields a space.

module SvgPath {
  import opened Common
  import opened Text

  /** The whitespace-separated words of the path data: `M x0 y0`, then `L xi yi` per further point. */
  function PathTokens(points: seq<Point>, fmt: real -> string): (toks: seq<string>)
    ensures |toks| == 3 * |points|
  {
    if points == [] then []
    else
      var last := points[|points| - 1];
      PathTokens(points[..|points| - 1], fmt)
        + [if |points| == 1 then "M" else "L", fmt(last.x), fmt(last.y)]
  }

  /** Point `k` is written as the command word (`M` for the first, `L` after), then its x, then its y. */
  lemma {:induction false} PathTokensAt(points: seq<Point>, fmt: real -> string, k: int)
    requires 0 <= k < |points|
    ensures PathTokens(points, fmt)[3 * k] == (if k == 0 then "M" else "L")
    ensures PathTokens(points, fmt)[3 * k + 1] == fmt(points[k].x)
    ensures PathTokens(points, fmt)[3 * k + 2] == fmt(points[k].y)
  {
    if k < |points| - 1 {
      PathTokensAt(points[..|points| - 1], fmt, k);
    }
  }

  lemma {:induction false} JoinAppend(parts: seq<string>, more: seq<string>, sep: char)
    requires |parts| >= 1
    ensures Join(parts + more, sep) == Join(parts, sep) + (if more == [] then "" else [sep] + Join(more, sep))
  {
    if |parts| == 1 {
      if more != [] {
        assert (parts + more)[1..] == more;
      }
    } else {
      assert (parts + more)[1..] == parts[1..] + more;
      JoinAppend(parts[1..], more, sep);
    }
  }

  lemma JoinThree(a: string, b: string, c: string, sep: char)
    ensures Join([a, b, c], sep) == a + [sep] + b + [sep] + c
  {
    assert [a, b, c][1..] == [b, c];
    assert [b, c][1..] == [c];
    assert Join([b, c], sep) == b + [sep] + c;
    assert Join([a, b, c], sep) == a + [sep] + (b + [sep] + c);
  }

  lemma {:induction false} TokensWithoutSpace(points: seq<Point>, fmt: real -> string)
    requires forall k :: 0 <= k < |points| ==> ' ' !in fmt(points[k].x) && ' ' !in fmt(points[k].y)
    ensures forall k :: 0 <= k < |PathTokens(points, fmt)| ==> ' ' !in PathTokens(points, fmt)[k]
  {
    if points != [] {
      TokensWithoutSpace(points[..|points| - 1], fmt);
    }
  }

  /** `pointsToSvgPath`: the path words joined by single spaces; no points give `""`. */
  method PointsToSvgPath(points: seq<Point>, fmt: real -> string) returns (pathD: string)
    ensures pathD == Join(PathTokens(points, fmt), ' ')
  {
    if |points| == 0 {
      return "";
    }
    pathD := "M " + fmt(points[0].x) + " " + fmt(points[0].y);
    assert points[..1] == [points[0]];
    assert PathTokens(points[..1], fmt) == ["M", fmt(points[0].x), fmt(points[0].y)];
    JoinThree("M", fmt(points[0].x), fmt(points[0].y), ' ');
    for i := 1 to |points|
      invariant pathD == Join(PathTokens(points[..i], fmt), ' ')
    {
      var before := PathTokens(points[..i], fmt);
      assert points[..i + 1][..i] == points[..i];
      var x, y := fmt(points[i].x), fmt(points[i].y);
      JoinAppend(before, ["L", x, y], ' ');
      JoinThree("L", x, y, ' ');
      assert " L " + x + " " + y == [' '] + ("L" + [' '] + x + [' '] + y);
      pathD := pathD + (" L " + x + " " + y);
    }
    assert points[..|points|] == points;
  }

  /** Reads path words back into points; `None` when they are not `M x y (L x y)*`. */
  function ParseTokens(toks: seq<string>, parse: string -> real): Option<seq<Point>> {
    if toks == [] then Some([])
    else if |toks| < 3 then None
    else
      var n := |toks|;
      match ParseTokens(toks[..n - 3], parse)
      case None => None
      case Some(ps) =>
        if toks[n - 3] == (if ps == [] then "M" else "L")
        then Some(ps + [Point(parse(toks[n - 2]), parse(toks[n - 1]))])
        else None
  }

  /** Reads SVG path data in the serialiser's form back into points. */
  function ParseSvgPath(pathD: string, parse: string -> real): Option<seq<Point>> {
    if pathD == "" then Some([]) else ParseTokens(Split(pathD, ' '), parse)
  }

  /** `fmt` writes no space for any coordinate of `points`, and `parse` reads each back. */
  ghost predicate Readable(points: seq<Point>, fmt: real -> string, parse: string -> real) {
    forall k :: 0 <= k < |points| ==>
      && ' ' !in fmt(points[k].x) && ' ' !in fmt(points[k].y)
      && parse(fmt(points[k].x)) == points[k].x && parse(fmt(points[k].y)) == points[k].y
  }

  lemma {:induction false} ParseTokensRoundTrip(points: seq<Point>, fmt: real -> string, parse: string -> real)
    requires Readable(points, fmt, parse)
    ensures ParseTokens(PathTokens(points, fmt), parse) == Some(points)
  {
    if points != [] {
      var n := |points|;
      var toks := PathTokens(points, fmt);
      assert toks[..3 * n - 3] == PathTokens(points[..n - 1], fmt);
      ParseTokensRoundTrip(points[..n - 1], fmt, parse);
      assert points[..n - 1] + [points[n - 1]] == points;
    }
  }

  /** Round trip: reading the serialised path data gives back exactly the points, in order. */
  lemma SvgPathRoundTrip(points: seq<Point>, fmt: real -> string, parse: string -> real)
    requires Readable(points, fmt, parse)
    ensures ParseSvgPath(Join(PathTokens(points, fmt), ' '), parse) == Some(points)
  {
    var toks := PathTokens(points, fmt);
    ParseTokensRoundTrip(points, fmt, parse);
    if points != [] {
      TokensWithoutSpace(points, fmt);
      SplitJoin(toks, ' ');
      JoinAppend([toks[0]], toks[1..], ' ');
      assert [toks[0]] + toks[1..] == toks;
      PathTokensAt(points, fmt, 0);
    }
  }
}
