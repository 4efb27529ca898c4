/**
 * Rendering of a log call's arguments (logs/logs.go `Log`, `Panicf`).
 *
 * `fmt.Sprintf` is left uninterpreted: a `Formatter` is any function of a
 * template and its arguments. `fmt.Sprintln` and `fmt.Sprint` are simple
 * enough to be written out.
 */
module Format {

  /** A Go `interface{}` argument: a value whose dynamic type is `string`, or any other value with its `%v` text. */
  datatype Value = Str(s: string) | Other(repr: string)

  /** `fmt.Sprintf(template, args...)`, uninterpreted. */
  type Formatter = (string, seq<Value>) -> string

  /** The default (`%v`) text of one operand. */
  function Text(v: Value): string {
    match v
    case Str(s) => s
    case Other(r) => r
  }

  function Texts(vs: seq<Value>): seq<string> {
    seq(|vs|, i requires 0 <= i < |vs| => Text(vs[i]))
  }

  function TotalLength(parts: seq<string>): nat {
    if |parts| == 0 then 0 else |parts[0]| + TotalLength(parts[1..])
  }

  function Concat(parts: seq<string>): string {
    if |parts| == 0 then "" else parts[0] + Concat(parts[1..])
  }

  /** The parts separated by single spaces. */
  function JoinSpaces(parts: seq<string>): (r: string)
    ensures |parts| > 0 ==> |r| == TotalLength(parts) + |parts| - 1
    ensures |parts| > 0 ==> r[..|parts[0]|] == parts[0]
  {
    if |parts| == 0 then ""
    else if |parts| == 1 then parts[0]
    else parts[0] + " " + JoinSpaces(parts[1..])
  }

  /** `fmt.Sprintln`: spaces between all operands and a final newline. */
  function Sprintln(vs: seq<Value>): (r: string)
    ensures |r| > 0 && r[|r| - 1] == '\n'
  {
    JoinSpaces(Texts(vs)) + "\n"
  }

  /** `fmt.Sprint`: a space only between two adjacent operands neither of which is a string. */
  function Sprint(vs: seq<Value>): string {
    if |vs| == 0 then ""
    else Text(vs[0]) + (if |vs| > 1 && vs[0].Other? && vs[1].Other? then " " else "") + Sprint(vs[1..])
  }

  /** A string cut at every single space: the inverse of JoinSpaces on words without spaces. */
  function Split(s: string): (r: seq<string>)
    ensures |r| > 0
  {
    if |s| == 0 then [""]
    else
      var rest := Split(s[1..]);
      if s[0] == ' ' then [""] + rest else [[s[0]] + rest[0]] + rest[1..]
  }

  /** The tag prefix of a rendered line. */
  function Bracket(tag: string): string {
    "[" + tag + "]"
  }

  /**
   * The line `Log` renders, with the non-string first argument kept:
   * a string first argument is the template (after the bracketed tag and
   * a space) for the rest; otherwise tag and all arguments are joined.
   */
  function Render(tag: string, v: seq<Value>, sprintf: Formatter): (r: string)
    requires |v| > 0
    ensures v[0].Str? ==> r == sprintf(Bracket(tag) + " " + v[0].s, v[1..])
    ensures v[0].Other? ==> |r| > 0 && r[|r| - 1] == '\n'
    ensures v[0].Other? ==> |tag| + 3 + |v[0].repr| <= |r| && r[..|tag| + 3 + |v[0].repr|] == Bracket(tag) + " " + v[0].repr
  {
    match v[0]
    case Str(first) => sprintf(Bracket(tag) + " " + first, v[1..])
    case Other(_) =>
      var r := Sprintln([Str(Bracket(tag))] + v);
      JoinPrefix(Bracket(tag), Text(v[0]), Texts(v[1..]));
      assert Texts([Str(Bracket(tag))] + v) == [Bracket(tag), Text(v[0])] + Texts(v[1..]);
      r
  }

  /**
   * The line as logs/logs.go:120-128 computes it: in the join path `first`
   * is the zero string left by the failed type assertion, so it stands in
   * the slice where the first argument was meant to be.
   */
  function RenderAsWritten(tag: string, v: seq<Value>, sprintf: Formatter): (r: string)
    requires |v| > 0
    ensures v[0].Str? ==> r == Render(tag, v, sprintf)
  {
    match v[0]
    case Str(first) => sprintf(Bracket(tag) + " " + first, v[1..])
    case Other(_) => Sprintln([Str(Bracket(tag)), Str("")] + v[1..])
  }

  lemma JoinPrefix(a: string, b: string, rest: seq<string>)
    ensures |a| + 1 + |b| <= |JoinSpaces([a, b] + rest)|
    ensures JoinSpaces([a, b] + rest)[..|a| + 1 + |b|] == a + " " + b
  {
    var parts := [a, b] + rest;
    assert parts[1..] == [b] + rest;
    var tail := JoinSpaces(parts[1..]);
    assert tail[..|b|] == b;
    assert JoinSpaces(parts) == a + " " + tail;
  }

  /** The total length of two lists joined is the sum of their total lengths. */
  lemma {:induction false} TotalLengthAppend(a: seq<string>, b: seq<string>)
    ensures TotalLength(a + b) == TotalLength(a) + TotalLength(b)
  {
    if |a| > 0 {
      assert (a + b)[1..] == a[1..] + b;
      TotalLengthAppend(a[1..], b);
    } else {
      assert a + b == b;
    }
  }

  /** Splitting a word followed by a space and more text peels off exactly that word. */
  lemma {:induction false} SplitAfterWord(a: string, b: string)
    requires ' ' !in a
    ensures Split(a + " " + b) == [a] + Split(b)
  {
    var s := a + " " + b;
    if |a| == 0 {
      assert s == " " + b;
      assert s[1..] == b;
    } else {
      assert s[1..] == a[1..] + " " + b;
      assert ' ' !in a[1..] by {
        forall i | 0 <= i < |a[1..]| ensures a[1..][i] != ' ' { assert a[1..][i] == a[i + 1]; }
      }
      SplitAfterWord(a[1..], b);
      assert [a[0]] + a[1..] == a;
    }
  }

  /** A word without spaces splits into itself. */
  lemma {:induction false} SplitWord(a: string)
    requires ' ' !in a
    ensures Split(a) == [a]
  {
    if |a| > 0 {
      assert ' ' !in a[1..] by {
        forall i | 0 <= i < |a[1..]| ensures a[1..][i] != ' ' { assert a[1..][i] == a[i + 1]; }
      }
      SplitWord(a[1..]);
      assert [a[0]] + a[1..] == a;
    }
  }

  /** Words joined by single spaces split back into the same words. */
  lemma {:induction false} SplitJoin(parts: seq<string>)
    requires |parts| > 0
    requires forall i :: 0 <= i < |parts| ==> ' ' !in parts[i]
    ensures Split(JoinSpaces(parts)) == parts
  {
    if |parts| == 1 {
      SplitWord(parts[0]);
    } else {
      SplitJoin(parts[1..]);
      SplitAfterWord(parts[0], JoinSpaces(parts[1..]));
      assert [parts[0]] + parts[1..] == parts;
    }
  }

  /** With only string operands, `Sprint` concatenates their texts. */
  lemma {:induction false} SprintOfStrings(vs: seq<Value>)
    requires forall i :: 0 <= i < |vs| ==> vs[i].Str?
    ensures Sprint(vs) == Concat(Texts(vs))
  {
    if |vs| > 0 {
      SprintOfStrings(vs[1..]);
      assert Texts(vs)[1..] == Texts(vs[1..]);
    }
  }

  /** With no string operand, `Sprint` separates operands by spaces, as `Sprintln` does without its newline. */
  lemma {:induction false} SprintOfOthers(vs: seq<Value>)
    requires forall i :: 0 <= i < |vs| ==> vs[i].Other?
    ensures Sprint(vs) == JoinSpaces(Texts(vs))
  {
    if |vs| > 0 {
      SprintOfOthers(vs[1..]);
      assert Texts(vs)[1..] == Texts(vs[1..]);
    }
  }

  /** The spaces a rendered join-path line is cut at give back the tag token and every argument. */
  lemma JoinPathTokens(tag: string, v: seq<Value>, sprintf: Formatter)
    requires |v| > 0 && v[0].Other?
    requires ' ' !in tag
    requires forall i :: 0 <= i < |v| ==> ' ' !in Text(v[i])
    ensures var r := Render(tag, v, sprintf);
      r[|r| - 1] == '\n' && Split(r[..|r| - 1]) == [Bracket(tag)] + Texts(v)
  {
    var parts := Texts([Str(Bracket(tag))] + v);
    assert parts == [Bracket(tag)] + Texts(v);
    assert ' ' !in Bracket(tag);
    forall i | 0 <= i < |parts| ensures ' ' !in parts[i] {
      if i > 0 { assert parts[i] == Text(v[i - 1]); }
    }
    SplitJoin(parts);
    var r := Render(tag, v, sprintf);
    assert r[..|r| - 1] == JoinSpaces(parts);
  }

  /** The join path never consults the formatter, so `%` in an argument is printed as is. */
  lemma JoinPathIgnoresFormatter(tag: string, v: seq<Value>, f: Formatter, g: Formatter)
    requires |v| > 0 && v[0].Other?
    ensures Render(tag, v, f) == Render(tag, v, g)
  {
  }

  /** As written, a non-empty non-string first argument never reaches the line. */
  lemma AsWrittenLosesFirst(tag: string, v: seq<Value>, sprintf: Formatter)
    requires |v| > 0 && v[0].Other? && v[0].repr != ""
    ensures RenderAsWritten(tag, v, sprintf) != Render(tag, v, sprintf)
    ensures |Render(tag, v, sprintf)| == |RenderAsWritten(tag, v, sprintf)| + |v[0].repr|
  {
    var tail := Texts(v[1..]);
    var written := Texts([Str(Bracket(tag)), Str("")] + v[1..]);
    var fixed := Texts([Str(Bracket(tag))] + v);
    assert written == [Bracket(tag), ""] + tail;
    assert fixed == [Bracket(tag), v[0].repr] + tail;
    TotalLengthAppend([Bracket(tag), ""], tail);
    TotalLengthAppend([Bracket(tag), v[0].repr], tail);
    assert TotalLength([Bracket(tag), ""]) == |Bracket(tag)|;
    assert TotalLength([Bracket(tag), v[0].repr]) == |Bracket(tag)| + |v[0].repr|;
  }

  /** Log(INFO, 42): the source prints "[INFO] \n", the corrected rendering "[INFO] 42\n". */
  lemma AsWrittenExample(sprintf: Formatter)
    ensures RenderAsWritten("INFO", [Other("42")], sprintf) == "[INFO] \n"
    ensures Render("INFO", [Other("42")], sprintf) == "[INFO] 42\n"
  {
    var v := [Other("42")];
    assert Bracket("INFO") == "[INFO]";
    assert [Str("[INFO]"), Str("")] + v[1..] == [Str("[INFO]"), Str("")];
    assert Texts([Str("[INFO]"), Str("")]) == ["[INFO]", ""];
    assert JoinSpaces(["[INFO]", ""]) == "[INFO]" + " " + JoinSpaces([""]);
    assert [Str("[INFO]")] + v == [Str("[INFO]"), Other("42")];
    assert Texts([Str("[INFO]"), Other("42")]) == ["[INFO]", "42"];
    assert JoinSpaces(["[INFO]", "42"]) == "[INFO]" + " " + JoinSpaces(["42"]);
  }
}
