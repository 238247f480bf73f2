/**
 * Splitting text into lines and joining lines with a newline, as Python's
 * `s.split("\n")` and `"\n".join(parts)`. Splitting is the inverse used to read
 * a prompt or a references block back into its parts.
 */
module Text {

  predicate OneLine(s: string) {
    '\n' !in s
  }

  /** The pieces of `s` between newline characters; never empty, as with `s.split("\n")`. */
  function Lines(s: string): (r: seq<string>)
    ensures |r| >= 1
  {
    if s == [] then [""]
    else
      var rest := Lines(s[1..]);
      if s[0] == '\n' then [""] + rest else [[s[0]] + rest[0]] + rest[1..]
  }

  /** `"\n".join(parts)` */
  function Join(parts: seq<string>): string {
    if |parts| == 0 then ""
    else if |parts| == 1 then parts[0]
    else parts[0] + "\n" + Join(parts[1..])
  }

  /** The lines of every part, one part after the other. */
  function LinesOfEach(parts: seq<string>): seq<string> {
    if parts == [] then [] else Lines(parts[0]) + LinesOfEach(parts[1..])
  }

  /** Text without a newline is one line. */
  lemma {:induction false} LinesOfOneLine(s: string)
    requires OneLine(s)
    ensures Lines(s) == [s]
  {
    if s != [] {
      LinesOfOneLine(s[1..]);
      assert [s[0]] + s[1..] == s;
    }
  }

  /** A newline between two texts separates their lines and nothing else. */
  lemma {:induction false} LinesAround(a: string, b: string)
    ensures Lines(a + "\n" + b) == Lines(a) + Lines(b)
  {
    var joined := a + "\n" + b;
    if a == [] {
      assert joined[0] == '\n' && joined[1..] == b;
    } else {
      assert joined[0] == a[0] && joined[1..] == a[1..] + "\n" + b;
      LinesAround(a[1..], b);
      var rest := Lines(joined[1..]);
      assert rest == Lines(a[1..]) + Lines(b);
      assert rest[0] == Lines(a[1..])[0];
    }
  }

  /** Splitting a join gives back the lines of the joined parts, in order. */
  lemma {:induction false} LinesOfJoin(parts: seq<string>)
    requires parts != []
    ensures Lines(Join(parts)) == LinesOfEach(parts)
  {
    if |parts| == 1 {
      assert LinesOfEach(parts[1..]) == [];
    } else {
      LinesAround(parts[0], Join(parts[1..]));
      LinesOfJoin(parts[1..]);
    }
  }
}
