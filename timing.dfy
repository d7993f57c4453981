/** `fetch_time_output`: picking the timing lines out of a command's output. */
module Timing {
  import opened Wrappers
  import opened Strings

  /**
   * `fetch_time_output(marker, format_s, ins)`: the lines containing `marker`,
   * each parsed (`parse` stands for `parse(format_s, line)`), keeping the
   * results that parsed, in line order.
   */
  function FetchTimeOutput<T>(marker: string, parse: string -> Option<T>, ins: seq<string>): (r: seq<T>)
    ensures |r| <= |ins|
    ensures forall x :: x in r ==> exists line :: line in ins && Contains(line, marker) && parse(line) == Some(x)
  {
    if ins == [] then []
    else
      var rest := FetchTimeOutput(marker, parse, ins[1..]);
      if Contains(ins[0], marker) && parse(ins[0]).Some? then [parse(ins[0]).value] + rest else rest
  }

  /** Every marked line that parses contributes its result. */
  lemma {:induction false} FetchTimeOutputKeepsParsedLines<T>(marker: string, parse: string -> Option<T>, ins: seq<string>, line: string)
    requires line in ins && Contains(line, marker) && parse(line).Some?
    ensures parse(line).value in FetchTimeOutput(marker, parse, ins)
  {
    if ins[0] != line {
      FetchTimeOutputKeepsParsedLines(marker, parse, ins[1..], line);
    }
  }

  /** Lines without the marker are dropped wherever they stand. */
  lemma {:induction false} FetchTimeOutputIgnoresUnmarked<T>(marker: string, parse: string -> Option<T>, ins: seq<string>, line: string)
    requires !Contains(line, marker)
    ensures FetchTimeOutput(marker, parse, ins + [line]) == FetchTimeOutput(marker, parse, ins)
    ensures FetchTimeOutput(marker, parse, [line] + ins) == FetchTimeOutput(marker, parse, ins)
  {
    assert ([line] + ins)[1..] == ins;
    if ins != [] {
      assert (ins + [line])[1..] == ins[1..] + [line];
      FetchTimeOutputIgnoresUnmarked(marker, parse, ins[1..], line);
    } else {
      assert (ins + [line])[1..] == [];
    }
  }

  /** Filtering distributes over concatenation, so results keep the order and multiplicity of their lines. */
  lemma {:induction false} FetchTimeOutputAppend<T>(marker: string, parse: string -> Option<T>, a: seq<string>, b: seq<string>)
    ensures FetchTimeOutput(marker, parse, a + b) == FetchTimeOutput(marker, parse, a) + FetchTimeOutput(marker, parse, b)
  {
    if a == [] {
      assert a + b == b;
    } else {
      assert (a + b)[0] == a[0] && (a + b)[1..] == a[1..] + b;
      FetchTimeOutputAppend(marker, parse, a[1..], b);
    }
  }
}
