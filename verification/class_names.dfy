/**
 The dashboard's class-name combinator `cn`: it takes a list of optional
 class strings, drops the falsy ones (`false`, `null`, `undefined` and the
 empty string) and joins the rest with single spaces.
 */
module ClassNames {

  /** One argument of `cn`: a string or one of the falsy non-strings. */
  datatype ClassArg = Str(s: string) | False | Null | Undefined

  /** JavaScript truthiness of an argument (`Boolean(a)`): only a non-empty
      string is truthy. */
  predicate Truthy(a: ClassArg)
    ensures Truthy(a) <==> a !in {False, Null, Undefined, Str("")}
  {
    a.Str? && a.s != ""
  }

  /** `args.filter(Boolean)`: the strings of the truthy arguments, in order. */
  function Kept(args: seq<ClassArg>): (r: seq<string>)
    ensures |r| <= |args|
    ensures forall i :: 0 <= i < |r| ==> r[i] != ""
  {
    if |args| == 0 then []
    else (if Truthy(args[0]) then [args[0].s] else []) + Kept(args[1..])
  }

  /** Sum of the lengths of the parts. */
  function TotalLength(parts: seq<string>): nat {
    if |parts| == 0 then 0 else |parts[0]| + TotalLength(parts[1..])
  }

  /** `parts.join(sep)`: the parts with `sep` between neighbours. The result
      starts with the first part and holds every character of every part
      plus one separator between each pair of neighbours. */
  function Join(parts: seq<string>, sep: string): (r: string)
    ensures |parts| == 0 ==> r == ""
    ensures |parts| > 0 ==> |r| == TotalLength(parts) + (|parts| - 1) * |sep|
    ensures |parts| > 0 ==> r[..|parts[0]|] == parts[0]
  {
    if |parts| == 0 then ""
    else if |parts| == 1 then parts[0]
    else parts[0] + sep + Join(parts[1..], sep)
  }

  /** `s.split(" ")`: the maximal space-free pieces between spaces, including
      empty pieces between adjacent spaces and at either end. */
  function Split(s: string): (parts: seq<string>)
    ensures |parts| >= 1
  {
    if |s| == 0 then [""]
    else
      var rest := Split(s[1..]);
      if s[0] == ' ' then [""] + rest
      else [[s[0]] + rest[0]] + rest[1..]
  }

  /** The class string `cn(...args)`. */
  function Cn(args: seq<ClassArg>): (r: string)
    ensures r == "" <==> forall i :: 0 <= i < |args| ==> !Truthy(args[i])
  {
    KeptEmptyIffNoneTruthy(args);
    JoinEmptyIffNoParts(Kept(args));
    Join(Kept(args), " ")
  }

  // ---------- properties of the pieces ----------

  /** `filter` keeps an element exactly when it is truthy, argument by argument:
      it distributes over concatenation and keeps a single truthy argument. */
  lemma {:induction false} KeptAppend(a: seq<ClassArg>, b: seq<ClassArg>)
    ensures Kept(a + b) == Kept(a) + Kept(b)
    ensures |a| == 1 ==> Kept(a) == (if Truthy(a[0]) then [a[0].s] else [])
    decreases |a|
  {
    if |a| == 0 {
      assert a + b == b;
    } else {
      assert |a| == 1 ==> a[1..] == [];
      assert (a + b)[1..] == a[1..] + b;
      KeptAppend(a[1..], b);
    }
  }

  /** Nothing is kept exactly when no argument is truthy. */
  lemma {:induction false} KeptEmptyIffNoneTruthy(args: seq<ClassArg>)
    ensures Kept(args) == [] <==> forall i :: 0 <= i < |args| ==> !Truthy(args[i])
    decreases |args|
  {
    if |args| > 0 {
      KeptEmptyIffNoneTruthy(args[1..]);
      if Kept(args) == [] {
        forall i | 0 <= i < |args|
          ensures !Truthy(args[i])
        {
          if i > 0 {
            assert args[i] == args[1..][i - 1];
          }
        }
      }
    }
  }

  /** Joining non-empty parts gives the empty string only for no parts. */
  lemma JoinEmptyIffNoParts(parts: seq<string>)
    requires forall i :: 0 <= i < |parts| ==> parts[i] != ""
    ensures Join(parts, " ") == "" <==> parts == []
  {
  }

  predicate SpaceFree(w: string) {
    forall i :: 0 <= i < |w| ==> w[i] != ' '
  }

  /** Splitting a space-free word followed by a space and a tail splits off
      that word. */
  lemma {:induction false} SplitWord(w: string, tail: string)
    requires SpaceFree(w)
    ensures Split(w + " " + tail) == [w] + Split(tail)
    ensures Split(w) == [w]
    decreases |w|
  {
    var s := w + " " + tail;
    if |w| == 0 {
      assert s == [' '] + tail;
      assert s[1..] == tail;
    } else {
      assert s[1..] == w[1..] + " " + tail;
      assert w == [w[0]] + w[1..];
      SplitWord(w[1..], tail);
    }
  }

  /** Splitting on spaces undoes joining with spaces, as long as there is at
      least one part and no part contains a space. */
  lemma {:induction false} SplitJoin(parts: seq<string>)
    requires |parts| >= 1
    requires forall i :: 0 <= i < |parts| ==> SpaceFree(parts[i])
    ensures Split(Join(parts, " ")) == parts
    decreases |parts|
  {
    SplitWord(parts[0], "");
    if |parts| > 1 {
      SplitWord(parts[0], Join(parts[1..], " "));
      SplitJoin(parts[1..]);
    }
  }

  /** The pieces of all the parts, split one by one, in order. */
  function SplitEach(parts: seq<string>): seq<string> {
    if |parts| == 0 then [] else Split(parts[0]) + SplitEach(parts[1..])
  }

  /** A space splits the pieces before it from the pieces after it, whatever
      the two sides contain. */
  lemma {:induction false} SplitAround(a: string, b: string)
    ensures Split(a + " " + b) == Split(a) + Split(b)
    decreases |a|
  {
    var s := a + " " + b;
    if |a| == 0 {
      assert s == [' '] + b;
      assert s[1..] == b;
    } else {
      assert s[1..] == a[1..] + " " + b;
      SplitAround(a[1..], b);
    }
  }

  /** Splitting a space-joined list on spaces yields the pieces of each part
      in turn, for any parts at all: a multi-class entry such as
      "mt-1 text-xs" contributes its own classes. */
  lemma {:induction false} SplitJoinEach(parts: seq<string>)
    requires |parts| >= 1
    ensures Split(Join(parts, " ")) == SplitEach(parts)
    decreases |parts|
  {
    if |parts| == 1 {
      assert SplitEach(parts[1..]) == [];
    } else {
      SplitAround(parts[0], Join(parts[1..], " "));
      SplitJoinEach(parts[1..]);
    }
  }

  /** The words of a non-empty `cn` string are the words of the truthy
      arguments, argument after argument. */
  lemma CnWords(args: seq<ClassArg>)
    requires Cn(args) != ""
    ensures Split(Cn(args)) == SplitEach(Kept(args))
  {
    SplitJoinEach(Kept(args));
  }

  /** Two space-free words with one space between split into those words. */
  lemma TwoWords(a: string, b: string)
    requires SpaceFree(a) && SpaceFree(b)
    ensures Split(a + " " + b) == [a, b]
  {
    SplitWord(a, b);
    SplitWord(b, "");
  }

  /** When exactly two strings survive the filter, `cn` is those two, one
      space apart. */
  lemma CnOfTwoKept(args: seq<ClassArg>, x: string, y: string)
    requires Kept(args) == [x, y]
    ensures Cn(args) == x + " " + y
  {
    assert [x, y][1..] == [y];
    assert Join([x, y], " ") == x + " " + Join([y], " ");
  }

  /** `cn` of two non-empty strings keeps both. */
  lemma KeptPair(x: string, y: string)
    requires x != "" && y != ""
    ensures Kept([Str(x), Str(y)]) == [x, y]
  {
  }

  /** The words of `cn` of two non-empty strings are the words of the first
      followed by the words of the second. */
  lemma CnPairWords(x: string, y: string)
    requires x != "" && y != ""
    ensures Split(Cn([Str(x), Str(y)])) == Split(x) + Split(y)
  {
    KeptPair(x, y);
    CnOfTwoKept([Str(x), Str(y)], x, y);
    SplitAround(x, y);
  }

  /** `cn` can be read back: splitting its result on spaces recovers exactly
      the truthy arguments, in order, when it is non-empty and no argument
      contains a space. */
  lemma {:induction false} CnSplitsIntoKept(args: seq<ClassArg>)
    requires Cn(args) != ""
    requires forall i :: 0 <= i < |args| && args[i].Str? ==> SpaceFree(args[i].s)
    ensures Split(Cn(args)) == Kept(args)
  {
    KeptEmptyIffNoneTruthy(args);
    KeptSpaceFree(args);
    SplitJoin(Kept(args));
  }

  /** Every kept string comes from some argument, so space-free arguments
      keep space-free strings. */
  lemma {:induction false} KeptSpaceFree(args: seq<ClassArg>)
    requires forall i :: 0 <= i < |args| && args[i].Str? ==> SpaceFree(args[i].s)
    ensures forall i :: 0 <= i < |Kept(args)| ==> SpaceFree(Kept(args)[i])
    decreases |args|
  {
    if |args| > 0 {
      assert forall i :: 0 <= i < |args[1..]| && args[1..][i].Str? ==> SpaceFree(args[1..][i].s) by {
        forall i | 0 <= i < |args[1..]| && args[1..][i].Str?
          ensures SpaceFree(args[1..][i].s)
        {
          assert args[1..][i] == args[i + 1];
        }
      }
      KeptSpaceFree(args[1..]);
    }
  }
}
