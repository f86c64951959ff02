/**
 * What the reference split, the CIS macro and compile yield on concrete
 * literals, among them the two of the repository's test program.
 */
module Scenarios {
  import opened Results
  import opened TemplateSpec
  import opened TemplateLemmas
  import Decimal
  import Cast
  import Templates
  import Parser

  /** A text without '$' holds no "${". */
  lemma NoDollar(s: string)
    requires '$' !in s
    ensures !HasOpening(s)
  {
    forall i | 0 <= i < |s| ensures !OpensAt(s, i) {
      assert s[i] in s;
    }
  }

  /** A one-entry substitution map has the one text. */
  lemma TextsOfOne(k: string, v: Cast.StringCast)
    ensures Templates.Texts(map[k := v]) == map[k := v.Text()]
  {
  }

  const PrintLiteral: string := "\n    Print the ${var} of var\n  "

  /** The test program's literal: two shards around the identifier "var". */
  lemma PrintLiteralSplits()
    ensures Split(PrintLiteral) == Ok(Pieces(["\n    Print the ", " of var\n  "], ["var"]))
  {
    var p := Pieces(["\n    Print the ", " of var\n  "], ["var"]);
    NoDollar(p.shards[0]);
    NoDollar(p.shards[1]);
    assert WellFormed(p);
    assert Join(p.shards, p.identifiers) == PrintLiteral;
    SplitIffJoin(PrintLiteral, p);
  }

  /** The test program's expected output: "var" replaced by "value". */
  lemma PrintLiteralCompiles()
    ensures Interpolate(["\n    Print the ", " of var\n  "], ["var"], map["var" := "value"]) ==
      Ok("\n    Print the value of var\n  ")
  {
    var shards: seq<string> := ["\n    Print the ", " of var\n  "];
    assert shards[1..] == [" of var\n  "] && shards[1..][1..] == [];
    assert " of var\n  " + "" == " of var\n  ";
    assert "\n    Print the " + "value" + " of var\n  " == "\n    Print the value of var\n  ";
  }

  /** CIS(literal).compile(values) for a literal that parses. */
  method CompileLiteral(literal: string, values: map<string, Cast.StringCast>) returns (res: Result<string, CompileError>)
    requires Split(literal).Ok?
    ensures res == Interpolate(Split(literal).value.shards, Split(literal).value.identifiers, Templates.Texts(values))
  {
    var t := Parser.Cis(literal);
    res := t.value.Compile(values);
  }

  /** The character-array literal "value" (six elements with the terminator) as a substitution value. */
  method ValueLiteral() returns (v: Cast.StringCast)
    ensures v.Text() == "value"
  {
    var chars := new char[6] ['v', 'a', 'l', 'u', 'e', '\0'];
    v := new Cast.StringCast.FromLiteral(chars);
    assert chars[..5] == "value";
  }

  /** The test program: the literal compiled with var bound to the character-array literal "value". */
  method PrintTheValue() returns (res: Result<string, CompileError>)
    ensures res == Ok("\n    Print the value of var\n  ")
  {
    PrintLiteralSplits();
    var value := ValueLiteral();
    var values := map["var" := value];
    TextsOfOne("var", value);
    PrintLiteralCompiles();
    res := CompileLiteral(PrintLiteral, values);
  }

  /** The text of the integer 3. */
  lemma ThreeText()
    ensures Decimal.IntText(3) == "3"
  {
    assert Decimal.Digit(3) == '3';
  }

  /** The test program's second literal: one fragment before the identifier PI, an empty one after. */
  lemma IntegerLiteralSplits()
    ensures Split("I like ${PI}") == Ok(Pieces(["I like ", ""], ["PI"]))
  {
    var p := Pieces(["I like ", ""], ["PI"]);
    NoDollar(p.shards[0]);
    NoDollar(p.shards[1]);
    assert Join(p.shards, p.identifiers) == "I like ${PI}";
    SplitIffJoin("I like ${PI}", p);
  }

  /** Those pieces with PI bound to "3". */
  lemma IntegerLiteralCompiles()
    ensures Interpolate(["I like ", ""], ["PI"], map["PI" := "3"]) == Ok("I like 3")
  {
    var shards: seq<string> := ["I like ", ""];
    assert shards[1..] == [""] && shards[1..][1..] == [];
    assert "I like " + "3" + ("" + "") == "I like 3";
  }

  /** The test program's second case with an integer value: PI is cast from 3 and substituted by its decimal text. */
  method IntegerValue() returns (res: Result<string, CompileError>)
    ensures res == Ok("I like 3")
  {
    IntegerLiteralSplits();
    var value := new Cast.StringCast.FromInteger(3);
    ThreeText();
    var values := map["PI" := value];
    TextsOfOne("PI", value);
    IntegerLiteralCompiles();
    res := CompileLiteral("I like ${PI}", values);
  }

  /** A "${" with no later '}' makes the literal fail to parse. */
  lemma UnclosedPlaceholder()
    ensures Split("a${b").Err?
  {
    assert OpensAt("a${b", 1) && '}' !in "a${b"[3..];
    SplitProperties("a${b");
  }

  /** Inside a placeholder "${" is ordinary text: the identifier runs to the first '}'. */
  lemma NestedOpeningSplits()
    ensures Split("${a${b}") == Ok(Pieces(["", ""], ["a${b"]))
  {
    var p := Pieces(["", ""], ["a${b"]);
    NoDollar(p.shards[0]);
    NoDollar(p.shards[1]);
    assert "a${b"[0] != '}' && "a${b"[1] != '}' && "a${b"[2] != '}' && "a${b"[3] != '}';
    assert Join(p.shards, p.identifiers) == "${a${b}";
    SplitIffJoin("${a${b}", p);
  }

  /** ...and the scan opens only the outer placeholder. */
  lemma NestedOpening()
    ensures Split("${a${b}") == Ok(Pieces(["", ""], ["a${b"]))
    ensures Openings("${a${b}") == 1
  {
    NestedOpeningSplits();
    SplitProperties("${a${b}");
  }

  /** Two placeholders between three fragments. */
  lemma TwoPlaceholdersSplit()
    ensures Split("a${x}b${y}c") == Ok(Pieces(["a", "b", "c"], ["x", "y"]))
  {
    var p := Pieces(["a", "b", "c"], ["x", "y"]);
    NoDollar(p.shards[0]);
    NoDollar(p.shards[1]);
    NoDollar(p.shards[2]);
    assert Join(p.shards[2..], []) == "c";
    assert Join(p.shards[1..], p.identifiers[1..]) == "b${y}c";
    assert Join(p.shards, p.identifiers) == "a${x}b${y}c";
    SplitIffJoin("a${x}b${y}c", p);
  }

  /** Each placeholder is replaced by its value. */
  lemma TwoPlaceholdersCompile()
    ensures Interpolate(["a", "b", "c"], ["x", "y"], map["x" := "1", "y" := "2"]) == Ok("a1b2c")
  {
    var shards: seq<string> := ["a", "b", "c"];
    var ids: seq<string> := ["x", "y"];
    assert shards[1..] == ["b", "c"] && shards[1..][1..] == ["c"] && shards[1..][1..][1..] == [];
    assert ids[1..] == ["y"] && ids[1..][1..] == [];
    assert "a" + "1" + ("b" + "2" + ("c" + "")) == "a1b2c";
  }

  /** An empty placeholder is accepted as an empty identifier. */
  lemma EmptyIdentifier()
    ensures Split("${}") == Ok(Pieces(["", ""], [""]))
  {
    var p := Pieces(["", ""], [""]);
    NoDollar(p.shards[0]);
    NoDollar(p.shards[1]);
    assert Join(p.shards, p.identifiers) == "${}";
    SplitIffJoin("${}", p);
  }

  /** "${x}": two empty fragments around the identifier x. */
  lemma PlaceholderXSplits()
    ensures Split("${x}") == Ok(Pieces(["", ""], ["x"]))
  {
    var p := Pieces(["", ""], ["x"]);
    NoDollar(p.shards[0]);
    NoDollar(p.shards[1]);
    assert Join(p.shards, p.identifiers) == "${x}";
    SplitIffJoin("${x}", p);
  }

  /** "${x}" with an empty map: the error names x. */
  lemma MissingKey()
    ensures Split("${x}") == Ok(Pieces(["", ""], ["x"]))
    ensures Interpolate(["", ""], ["x"], map[]) == Err(MissingSubstitution("x"))
  {
    PlaceholderXSplits();
  }

  /** "${x}" with an extra key z: the result is the value of x alone. */
  lemma UnusedKey()
    ensures Split("${x}") == Ok(Pieces(["", ""], ["x"]))
    ensures Interpolate(["", ""], ["x"], map["x" := "v", "z" := "unused"]) == Ok("v")
  {
    PlaceholderXSplits();
    var shards: seq<string> := ["", ""];
    assert shards[1..] == [""] && shards[1..][1..] == [];
    assert map["x" := "v", "z" := "unused"]["x"] == "v";
    assert "" + "v" + ("" + "") == "v";
  }
}
