/**
 * The requirement-line cleaning of the package metadata script: the raw lines
 * of a requirements file become the list of install requirements. Every
 * newline character is removed from every line; then empty lines and the
 * editable-install marker `-e .` are dropped. Reading the file is not part of
 * the model: its lines are the input.
 */
module Requirements {
  import opened Seqs

  /** The line that asks pip to install the project itself in editable mode. */
  const EditableMarker: string := "-e ."

  predicate IsNotNewline(c: char) {
    c != '\n'
  }

  /** `line` with every newline character removed (a replace of "\n" by ""). */
  function StripNewlines(line: string): (r: string)
    ensures '\n' !in r
    ensures |r| <= |line|
  {
    Filter(line, IsNotNewline)
  }

  /** The first comprehension: every line with its newlines removed. */
  function StripAll(lines: seq<string>): seq<string> {
    seq(|lines|, i requires 0 <= i < |lines| => StripNewlines(lines[i]))
  }

  /** The filter of the second comprehension: non-empty and not exactly the marker. */
  predicate IsRequirement(req: string) {
    req != "" && req != EditableMarker
  }

  /** The requirements listed by the raw lines of a requirements file. */
  function GetRequirements(lines: seq<string>): (r: seq<string>)
    ensures |r| <= |lines|
    ensures lines == [] ==> r == []
    ensures forall i :: 0 <= i < |r| ==> '\n' !in r[i] && r[i] != "" && r[i] != EditableMarker
  {
    var stripped := StripAll(lines);
    assert forall x :: x in stripped ==> '\n' !in x;
    Filter(stripped, IsRequirement)
  }

  /** Removing newlines only deletes newline characters: the rest keeps its order. */
  lemma StripNewlinesKeepsOthers(line: string, c: char)
    ensures IsSubsequence(StripNewlines(line), line)
    ensures c != '\n' ==> multiset(StripNewlines(line))[c] == multiset(line)[c]
  {
    FilterIsSubsequence(line, IsNotNewline);
    FilterCount(line, IsNotNewline, c);
  }

  /** A line without a newline is left as it is. */
  lemma StripNewlinesNoNewline(line: string)
    requires '\n' !in line
    ensures StripNewlines(line) == line
  {
    FilterAllKept(line, IsNotNewline);
  }

  /**
   * The result is an order-preserving subsequence of the stripped lines, so
   * no requirement is invented or moved.
   */
  lemma ResultIsOrderedSubsequence(lines: seq<string>)
    ensures IsSubsequence(GetRequirements(lines), StripAll(lines))
  {
    FilterIsSubsequence(StripAll(lines), IsRequirement);
  }

  /**
   * Nothing valid is lost: each stripped value that is a requirement occurs in
   * the result exactly as often as among the stripped lines, and each other
   * value does not occur at all.
   */
  lemma ResultMultiplicity(lines: seq<string>, x: string)
    ensures multiset(GetRequirements(lines))[x]
         == if x != "" && x != EditableMarker then multiset(StripAll(lines))[x] else 0
  {
    FilterCount(StripAll(lines), IsRequirement, x);
  }

  /** Completeness: a line whose stripped form is a requirement is listed. */
  lemma LineIsListed(lines: seq<string>, i: nat)
    requires i < |lines|
    requires StripNewlines(lines[i]) != "" && StripNewlines(lines[i]) != EditableMarker
    ensures StripNewlines(lines[i]) in GetRequirements(lines)
  {
    assert StripAll(lines)[i] == StripNewlines(lines[i]);
    FilterKeepsMember(StripAll(lines), IsRequirement, StripNewlines(lines[i]));
  }

  /** Cleaning an already cleaned list changes nothing. */
  lemma GetRequirementsIdempotent(lines: seq<string>)
    ensures GetRequirements(GetRequirements(lines)) == GetRequirements(lines)
  {
    var r := GetRequirements(lines);
    forall i | 0 <= i < |r|
      ensures StripAll(r)[i] == r[i]
    {
      StripNewlinesNoNewline(r[i]);
    }
    assert StripAll(r) == r;
    FilterAllKept(r, IsRequirement);
  }

  /** A file of one line lists that line, stripped, exactly when it is a requirement. */
  lemma SingleLine(line: string)
    ensures GetRequirements([line])
         == if IsRequirement(StripNewlines(line)) then [StripNewlines(line)] else []
  {
    assert StripAll([line]) == [StripNewlines(line)];
    assert [StripNewlines(line)][1..] == [];
  }

  /** A line ending in a newline is cleaned to the line without it. */
  lemma StripTrailingNewline(line: string)
    requires '\n' !in line
    ensures StripNewlines(line + "\n") == line
  {
    StripNewlinesAppend(line, "\n");
    StripNewlinesNoNewline(line);
    assert StripNewlines("\n") == [];
  }

  /**
   * The marker filter is exact equality, applied after newlines are removed:
   * `-e .` followed by a newline is dropped, while a line with a leading
   * space is kept as a requirement. The third case is a fact about the
   * cleaning step alone: cleaning removes only `\n`, so a carriage return
   * would survive it. A file read in text mode with default newline handling
   * never yields such a line, since `\r\n` and a lone `\r` are read as `\n`.
   */
  lemma MarkerMatchIsExact()
    ensures GetRequirements(["-e .\n"]) == []
    ensures GetRequirements([" -e .\n"]) == [" -e ."]
    ensures GetRequirements(["-e .\r\n"]) == ["-e .\r"]
  {
    StripTrailingNewline("-e .");
    assert "-e ." + "\n" == "-e .\n";
    SingleLine("-e .\n");
    StripTrailingNewline(" -e .");
    assert " -e ." + "\n" == " -e .\n";
    assert " -e ." != EditableMarker by { assert " -e ."[0] != EditableMarker[0]; }
    SingleLine(" -e .\n");
    StripTrailingNewline("-e .\r");
    assert "-e .\r" + "\n" == "-e .\r\n";
    assert "-e .\r" != EditableMarker by { assert |"-e .\r"| != |EditableMarker|; }
    SingleLine("-e .\r\n");
  }

  /** Removing newlines distributes over concatenation. */
  lemma {:induction false} StripNewlinesAppend(a: string, b: string)
    ensures StripNewlines(a + b) == StripNewlines(a) + StripNewlines(b)
    decreases |a|
  {
    if a == [] {
      assert a + b == b;
    } else {
      assert (a + b)[1..] == a[1..] + b;
      StripNewlinesAppend(a[1..], b);
    }
  }
}
