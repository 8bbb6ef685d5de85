/**
 * The f-string shapes the prompt builder uses for coordinates: a pair
 * "(x,y)" with each number in two-decimal form, and bracketed lists of such
 * pairs separated by ", ". The two-decimal rendering itself is the
 * parameter `fmt`.
 */
module Format {
  import opened Scene

  /** `f"({x:.2f},{y:.2f})"`. */
  function PairText(p: Point, fmt: real -> string): string
  {
    "(" + fmt(p.x) + "," + fmt(p.y) + ")"
  }

  /** `sep.join(items)`: the items with `sep` between neighbours and nowhere else. */
  function Join(items: seq<string>, sep: string): string
  {
    if |items| == 0 then ""
    else if |items| == 1 then items[0]
    else Join(items[..|items| - 1], sep) + sep + items[|items| - 1]
  }

  /** One more item goes after the separator. */
  lemma JoinSnoc(items: seq<string>, item: string, sep: string)
    requires |items| > 0
    ensures Join(items + [item], sep) == Join(items, sep) + sep + item
  {
    assert (items + [item])[..|items|] == items;
  }

  function PairTexts(ps: seq<Point>, fmt: real -> string): (r: seq<string>)
    ensures |r| == |ps|
    ensures forall k | 0 <= k < |ps| :: r[k] == PairText(ps[k], fmt)
  {
    seq(|ps|, k requires 0 <= k < |ps| => PairText(ps[k], fmt))
  }

  /** A bracketed, comma-separated list of pairs, as Python prints a list of 2-tuples. */
  function PairList(ps: seq<Point>, fmt: real -> string): string
  {
    "[" + Join(PairTexts(ps, fmt), ", ") + "]"
  }

  /** Text free of newlines. */
  predicate OneLine(s: string)
  {
    '\n' !in s
  }

  /** The formatter never writes a newline. */
  ghost predicate FmtOneLine(fmt: real -> string)
  {
    forall x: real :: OneLine(fmt(x))
  }

  /** Joining one-line items with a one-line separator gives one line. */
  lemma {:induction false} JoinOneLine(items: seq<string>, sep: string)
    requires OneLine(sep) && forall k | 0 <= k < |items| :: OneLine(items[k])
    ensures OneLine(Join(items, sep))
  {
    if |items| > 1 {
      JoinOneLine(items[..|items| - 1], sep);
    }
  }

  /** With a one-line formatter, a list of pairs is a single line. */
  lemma PairListOneLine(ps: seq<Point>, fmt: real -> string)
    requires FmtOneLine(fmt)
    ensures OneLine(PairList(ps, fmt))
  {
    var items := PairTexts(ps, fmt);
    forall k | 0 <= k < |items| ensures OneLine(items[k]) {
      assert OneLine(fmt(ps[k].x)) && OneLine(fmt(ps[k].y));
    }
    JoinOneLine(items, ", ");
  }
}
