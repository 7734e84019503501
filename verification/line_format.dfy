/**
 The line formatter of IndentedLogger: two spaces per indentation level, the
 type tag, " - ", the message, and a parameter block rendered from a flat
 name/value array in which a pair with a null name or a null value is skipped.

 `ParamBlock` and `FormatLine` are the specification, written with a join over
 the kept pairs; `GetLogIndentSpaces` and `RenderParameters` follow the Java
 loops (a StringBuilder and a `first` flag) and are proved to agree with it.
 */
module LineFormat {
  import opened JavaTypes

  /** Two spaces per level; no indentation at all for a level of zero or below. */
  function Indent(level: int): string
  {
    seq(if level > 0 then 2 * level else 0, _ => ' ')
  }

  /** One kept pair as it appears in the block: name: "value". */
  function PairText(name: string, value: string): string
  {
    name + ": \"" + value + "\""
  }

  /** The parameter arrays the renderer accepts: null, or of even length. */
  predicate WellFormed(ps: JStringArray)
  {
    ps.Null? || |ps.value| % 2 == 0
  }

  /** Whether the k-th pair of a flat array has both a name and a value. */
  predicate KeptAt(a: seq<JString>, k: int)
  {
    0 <= 2 * k && 2 * k + 1 < |a| && a[2 * k].NonNull? && a[2 * k + 1].NonNull?
  }

  /** The texts of the kept pairs of an even-length flat array, in array order. */
  function RenderedPairs(a: seq<JString>): seq<string>
    requires |a| % 2 == 0
    decreases |a|
  {
    if |a| == 0 then []
    else
      var rest := RenderedPairs(a[..|a| - 2]);
      var name := a[|a| - 2];
      var value := a[|a| - 1];
      if name.NonNull? && value.NonNull? then rest + [PairText(name.value, value.value)] else rest
  }

  /** The items separated by sep, with no separator before the first or after the last. */
  function Join(sep: string, xs: seq<string>): string
    decreases |xs|
  {
    if |xs| == 0 then ""
    else if |xs| == 1 then xs[0]
    else Join(sep, xs[..|xs| - 1]) + sep + xs[|xs| - 1]
  }

  /**
   The parameter block of a log line: nothing for a null array, otherwise the
   kept pairs joined by ", " inside " {" and "}". An odd-length array makes the
   Java loop read one element past its end.
   */
  function ParamBlock(ps: JStringArray): (r: Result<string>)
    ensures r.Ok? <==> WellFormed(ps)
    ensures r.Err? ==> r.error == IndexOutOfBounds
    ensures ps.Null? ==> r == Ok("")
  {
    match ps
    case Null => Ok("")
    case NonNull(a) =>
      if |a| % 2 == 1 then Err(IndexOutOfBounds)
      else Ok(" {" + Join(", ", RenderedPairs(a)) + "}")
  }

  /** The whole rendered line; the prefix plays no part in it. */
  function FormatLine(level: int, kind: JString, message: JString, ps: JStringArray): (r: Result<string>)
    ensures r.Ok? <==> WellFormed(ps)
    ensures r.Err? ==> r.error == IndexOutOfBounds
  {
    match ParamBlock(ps)
    case Err(e) => Err(e)
    case Ok(block) => Ok(Indent(level) + (Show(kind) + " - " + Show(message) + block))
  }

  // ---------------------------------------------------------------------
  // The Java loops

  /** getLogIndentSpaces: appends two spaces once per level. */
  method GetLogIndentSpaces(level: int) returns (s: string)
    ensures s == Indent(level)
    ensures |s| == (if level > 0 then 2 * level else 0)
    ensures forall i :: 0 <= i < |s| ==> s[i] == ' '
  {
    s := "";
    var i := 0;
    while i < level
      invariant 0 <= i
      invariant i <= (if level > 0 then level else 0)
      invariant s == Indent(i)
    {
      assert Indent(i + 1) == Indent(i) + "  ";
      s := s + "  ";
      i := i + 1;
    }
  }

  /** The parameter-block loop of the static log method, step for step. */
  method RenderParameters(ps: JStringArray) returns (r: Result<string>)
    ensures r == ParamBlock(ps)
  {
    if ps.Null? {
      return Ok("");
    }
    var a := ps.value;
    var sb := " {";
    var first := true;
    var i := 0;
    while i < |a|
      invariant 0 <= i <= |a| && i % 2 == 0
      invariant first <==> |RenderedPairs(a[..i])| == 0
      invariant sb == " {" + Join(", ", RenderedPairs(a[..i]))
    {
      var name := a[i];
      if i + 1 >= |a| {
        return Err(IndexOutOfBounds);
      }
      var value := a[i + 1];
      RenderedPrefixStep(a, i);
      if name.NonNull? && value.NonNull? {
        KeptPairAppends(RenderedPairs(a[..i]), name.value, value.value, sb);
        if !first {
          sb := sb + ", ";
        }
        sb := sb + name.value + ": \"" + value.value + "\"";
        first := false;
      }
      i := i + 2;
    }
    assert a[..i] == a;
    r := Ok(sb + "}");
  }

  /** One more pair of the array: its text is appended when it is kept. */
  lemma {:induction false} RenderedPrefixStep(a: seq<JString>, i: nat)
    requires i % 2 == 0 && i + 2 <= |a|
    ensures RenderedPairs(a[..i + 2]) ==
      if a[i].NonNull? && a[i + 1].NonNull? then RenderedPairs(a[..i]) + [PairText(a[i].value, a[i + 1].value)]
      else RenderedPairs(a[..i])
  {
    assert a[..i + 2][..i] == a[..i];
  }

  /** Appending a kept pair to the builder, with ", " unless it is the first, extends the join. */
  lemma {:induction false} KeptPairAppends(done: seq<string>, name: string, value: string, sb: string)
    requires sb == " {" + Join(", ", done)
    ensures (if |done| == 0 then sb else sb + ", ") + name + ": \"" + value + "\"" ==
      " {" + Join(", ", done + [PairText(name, value)])
  {
    JoinSnoc(", ", done, PairText(name, value));
  }

  // ---------------------------------------------------------------------
  // Properties of the parameter block

  lemma {:induction false} JoinSnoc(sep: string, xs: seq<string>, x: string)
    ensures Join(sep, xs + [x]) == if |xs| == 0 then x else Join(sep, xs) + sep + x
  {
    assert (xs + [x])[..|xs|] == xs;
  }

  lemma {:induction false} JoinCons(sep: string, x: string, xs: seq<string>)
    ensures Join(sep, [x] + xs) == if |xs| == 0 then x else x + sep + Join(sep, xs)
    decreases |xs|
  {
    if |xs| > 1 {
      var init := xs[..|xs| - 1];
      assert ([x] + xs)[..|xs|] == [x] + init;
      JoinCons(sep, x, init);
    } else if |xs| == 1 {
      assert ([x] + xs)[..1] == [x];
    }
  }

  /** Rendering distributes over concatenation: pairs keep their array order. */
  lemma {:induction false} RenderedPairsAppend(a: seq<JString>, b: seq<JString>)
    requires |a| % 2 == 0 && |b| % 2 == 0
    ensures RenderedPairs(a + b) == RenderedPairs(a) + RenderedPairs(b)
    decreases |b|
  {
    if |b| == 0 {
      assert a + b == a;
    } else {
      var init := b[..|b| - 2];
      assert (a + b)[..|a + b| - 2] == a + init;
      RenderedPairsAppend(a, init);
    }
  }

  /** A single pair renders as one item when both halves are present, and vanishes otherwise. */
  lemma {:induction false} RenderedSinglePair(name: JString, value: JString)
    ensures RenderedPairs([name, value]) ==
      if name.NonNull? && value.NonNull? then [PairText(name.value, value.value)] else []
  {
    assert [name, value][..0] == [];
  }

  /** The block is empty braces exactly when every pair misses its name or its value. */
  lemma {:induction false} NothingKept(a: seq<JString>)
    requires |a| % 2 == 0
    ensures RenderedPairs(a) == [] <==> forall k :: !KeptAt(a, k)
    decreases |a|
  {
    if |a| > 0 {
      var init := a[..|a| - 2];
      NothingKept(init);
      var last := (|a| - 2) / 2;
      assert 2 * last == |a| - 2;
      assert KeptAt(a, last) <==> a[|a| - 2].NonNull? && a[|a| - 1].NonNull?;
      forall k
        ensures KeptAt(a, k) <==> KeptAt(init, k) || (k == last && KeptAt(a, last))
      {
      }
    }
  }

  /** Dropping a pair leaves no trace: no stray separator and no placeholder. */
  lemma {:induction false} DroppedPairLeavesNoTrace(a: seq<JString>, name: JString, value: JString)
    requires |a| % 2 == 0
    requires name.Null? || value.Null?
    ensures ParamBlock(NonNull(a + [name, value])) == ParamBlock(NonNull(a))
  {
    RenderedPairsAppend(a, [name, value]);
    RenderedSinglePair(name, value);
    assert RenderedPairs(a + [name, value]) == RenderedPairs(a);
  }

  /** A non-null array whose pairs are all dropped (or that is empty) still renders " {}". */
  lemma {:induction false} AllDroppedRendersEmptyBraces(a: seq<JString>)
    requires |a| % 2 == 0
    requires forall k :: !KeptAt(a, k)
    ensures ParamBlock(NonNull(a)) == Ok(" {}")
  {
    NothingKept(a);
    assert Join(", ", RenderedPairs(a)) == "";
    assert " {" + "" + "}" == " {}";
  }

  lemma {:induction false} KeptPairFirst(name: string, value: string, rest: seq<JString>)
    requires |rest| % 2 == 0
    ensures RenderedPairs([NonNull(name), NonNull(value)] + rest) == [PairText(name, value)] + RenderedPairs(rest)
  {
    RenderedPairsAppend([NonNull(name), NonNull(value)], rest);
    RenderedSinglePair(NonNull(name), NonNull(value));
  }

  /** The block of a non-null array of even length, in terms of its rendered pairs. */
  lemma {:induction false} EvenBlock(a: seq<JString>)
    requires |a| % 2 == 0
    ensures ParamBlock(NonNull(a)) == Ok(" {" + Join(", ", RenderedPairs(a)) + "}")
  {
  }

  /** Joining an item in front of a list: a separator only when the list is non-empty. */
  lemma {:induction false} JoinFront(p: string, pairs: seq<string>)
    ensures Join(", ", [p] + pairs) == p + (if pairs == [] then "" else ", " + Join(", ", pairs))
  {
    JoinCons(", ", p, pairs);
    if pairs != [] {
      assert p + ", " + Join(", ", pairs) == p + (", " + Join(", ", pairs));
    }
  }

  /**
   A leading pair that is kept renders first, followed by the rest of the
   block in order: the shape of the block an operation's end line carries.
   */
  lemma {:induction false} LeadingPairFirst(name: string, value: string, rest: seq<JString>)
    requires |rest| % 2 == 0
    ensures ParamBlock(NonNull([NonNull(name), NonNull(value)] + rest)) ==
      Ok(" {" + PairText(name, value)
         + (if RenderedPairs(rest) == [] then "" else ", " + Join(", ", RenderedPairs(rest)))
         + "}")
  {
    var a := [NonNull(name), NonNull(value)] + rest;
    var p := PairText(name, value);
    var pairs := RenderedPairs(rest);
    var tail := if pairs == [] then "" else ", " + Join(", ", pairs);
    EvenBlock(a);
    KeptPairFirst(name, value, rest);
    JoinFront(p, pairs);
    assert Join(", ", RenderedPairs(a)) == p + tail;
    assert " {" + (p + tail) + "}" == " {" + p + tail + "}";
  }

  // ---------------------------------------------------------------------
  // Properties of the whole line

  /** The number of spaces a string starts with. */
  function LeadingSpaces(s: string): nat
    decreases |s|
  {
    if |s| > 0 && s[0] == ' ' then 1 + LeadingSpaces(s[1..]) else 0
  }

  lemma {:induction false} LeadingSpacesAfterIndent(level: int, t: string)
    ensures LeadingSpaces(Indent(level) + t) == |Indent(level)| + LeadingSpaces(t)
    decreases if level > 0 then level else 0
  {
    if level > 0 {
      assert (Indent(level) + t)[1..] == " " + (Indent(level - 1) + t);
      assert (" " + (Indent(level - 1) + t))[1..] == Indent(level - 1) + t;
      LeadingSpacesAfterIndent(level - 1, t);
    } else {
      assert Indent(level) + t == t;
    }
  }

  /**
   The indentation level can be read back from a rendered line: it starts with
   exactly twice the level in spaces, provided the type tag does not itself
   start with a space.
   */
  lemma {:induction false} RenderedLevel(level: int, kind: JString, message: JString, ps: JStringArray)
    requires WellFormed(ps)
    requires |Show(kind)| > 0 && Show(kind)[0] != ' '
    ensures LeadingSpaces(FormatLine(level, kind, message, ps).value) == (if level > 0 then 2 * level else 0)
  {
    var t := Show(kind) + " - " + Show(message) + ParamBlock(ps).value;
    assert FormatLine(level, kind, message, ps).value == Indent(level) + t;
    assert LeadingSpaces(t) == 0 by {
      assert t[0] == Show(kind)[0];
    }
    LeadingSpacesAfterIndent(level, t);
  }

  /** No line feed and no carriage return: nothing that starts a new line. */
  predicate NoNewline(s: string)
  {
    forall i :: 0 <= i < |s| ==> s[i] != '\n' && s[i] != '\r'
  }

  predicate NoNewlineIn(a: seq<JString>)
  {
    forall i :: 0 <= i < |a| && a[i].NonNull? ==> NoNewline(a[i].value)
  }

  lemma {:induction false} JoinNoNewline(sep: string, xs: seq<string>)
    requires NoNewline(sep)
    requires forall i :: 0 <= i < |xs| ==> NoNewline(xs[i])
    ensures NoNewline(Join(sep, xs))
    decreases |xs|
  {
    if |xs| > 1 {
      JoinNoNewline(sep, xs[..|xs| - 1]);
    }
  }

  lemma {:induction false} RenderedPairsNoNewline(a: seq<JString>)
    requires |a| % 2 == 0
    requires NoNewlineIn(a)
    ensures forall i :: 0 <= i < |RenderedPairs(a)| ==> NoNewline(RenderedPairs(a)[i])
    decreases |a|
  {
    if |a| > 0 {
      var init := a[..|a| - 2];
      assert NoNewlineIn(init);
      RenderedPairsNoNewline(init);
    }
  }

  /** Each call renders exactly one line: nothing it adds introduces a line break. */
  lemma {:induction false} SingleLine(level: int, kind: JString, message: JString, ps: JStringArray)
    requires WellFormed(ps)
    requires NoNewline(Show(kind)) && NoNewline(Show(message))
    requires ps.NonNull? ==> NoNewlineIn(ps.value)
    ensures NoNewline(FormatLine(level, kind, message, ps).value)
  {
    if ps.NonNull? {
      RenderedPairsNoNewline(ps.value);
      JoinNoNewline(", ", RenderedPairs(ps.value));
    }
  }
}
