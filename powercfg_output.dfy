/** The layout of the lines `powercfg /l` prints, as far as the power-plan
    action relies on it. */
module PowercfgOutput {
  import opened Text

  /** The active-plan mark, or nothing. */
  function Mark(active: bool): string
  {
    if active then " *" else ""
  }

  /** A line of `powercfg /l` output as Windows prints it,
      "Power Scheme GUID: <guid>  (High performance)", with a trailing " *"
      on the active plan: the plan name follows the GUID after two spaces. */
  function PowercfgLine(guid: string, active: bool): string
  {
    "Power" + (" " + ("Scheme" + (" " + ("GUID:" + (" " + (guid + ("  " + ("(High" + (" " + ("performance)" + Mark(active)))))))))))
  }

  /** The literal words of the line contain no whitespace. */
  lemma LiteralWords()
    ensures NoSpace("Power") && NoSpace("Scheme") && NoSpace("GUID:")
    ensures NoSpace("(High") && NoSpace("performance)") && NoSpace("*")
  {
  }

  /** Three words, each followed by one space. */
  lemma ThreeWords(a: string, b: string, c: string, rest: string)
    requires a != [] && NoSpace(a) && b != [] && NoSpace(b) && c != [] && NoSpace(c)
    ensures Split(a + (" " + (b + (" " + (c + (" " + rest)))))) == [a, b, c] + Split(rest)
  {
    var x3 := c + (" " + rest);
    var x2 := b + (" " + x3);
    SplitWordSep(c, " ", rest);
    SplitWordSep(b, " ", x3);
    SplitWordSep(a, " ", x2);
    ConsThree(a, b, c, Split(x2), Split(x3), Split(rest));
  }

  lemma ConsThree<T>(a: T, b: T, c: T, s2: seq<T>, s3: seq<T>, s4: seq<T>)
    requires s2 == [b] + s3 && s3 == [c] + s4
    ensures [a] + s2 == [a, b, c] + s4
  {
  }

  /** The fixed start of the line, up to the GUID. */
  lemma HeadWords(rest: string)
    ensures Split("Power" + (" " + ("Scheme" + (" " + ("GUID:" + (" " + rest))))))
            == ["Power", "Scheme", "GUID:"] + Split(rest)
  {
    LiteralWords();
    ThreeWords("Power", "Scheme", "GUID:", rest);
  }

  /** Two words after a run of spaces, the first followed by one space. */
  lemma TwoWords(sep: string, a: string, b: string, rest: string)
    requires AllSpace(sep) && a != [] && NoSpace(a) && b != [] && NoSpace(b)
    requires rest == [] || IsSpace(rest[0])
    ensures Split(sep + (a + (" " + (b + rest)))) == [a, b] + Split(rest)
  {
    var x2 := b + rest;
    var x1 := a + (" " + x2);
    WordThenRest(b, rest);
    SplitWordSep(a, " ", x2);
    SplitSkipsSpace(sep, x1);
    ConsTwo(a, b, Split(x2), Split(rest));
  }

  lemma ConsTwo<T>(a: T, b: T, s2: seq<T>, s3: seq<T>)
    requires s2 == [b] + s3
    ensures [a] + s2 == [a, b] + s3
  {
  }

  /** The mark splits into the word "*", or into nothing. */
  lemma MarkWords(active: bool)
    ensures Split(Mark(active)) == if active then ["*"] else []
    ensures Mark(active) == [] || IsSpace(Mark(active)[0])
  {
    if active {
      LiteralWords();
      SplitSkipsSpace(" ", "*");
      OneWord("*", "");
      assert "*" + "" == "*";
    }
  }

  /** The rest of the line after the GUID: the plan name and the mark. */
  lemma TailWords(active: bool)
    ensures Split("  " + ("(High" + (" " + ("performance)" + Mark(active)))))
            == ["(High", "performance)"] + (if active then ["*"] else [])
  {
    LiteralWords();
    MarkWords(active);
    TwoWords("  ", "(High", "performance)", Mark(active));
  }

  /** How split() cuts such a line: the first three words, the GUID, the
      two words of the plan name and, for the active plan, the mark. */
  lemma PowercfgLineWords(guid: string, active: bool)
    requires guid != [] && NoSpace(guid)
    ensures Split(PowercfgLine(guid, active))
            == ["Power", "Scheme", "GUID:", guid, "(High", "performance)"] + (if active then ["*"] else [])
  {
    var tail := "  " + ("(High" + (" " + ("performance)" + Mark(active))));
    HeadWords(guid + tail);
    WordThenRest(guid, tail);
    TailWords(active);
  }
}
