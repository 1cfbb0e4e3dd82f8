/** An f-string such as `f"geo:{lat},{lon}"`, filled without any escaping,
    together with the parser that recovers the substituted values.

    `Template(head, tail)` stands for the f-string that starts with the
    literal `head` and then, for each `i`, has a hole followed by the literal
    `tail[i]`: `f"geo:{lat},{lon}"` is `Template("geo:", [",", ""])`. */
module Templates {
  import opened Results
  import opened Strings

  datatype Template = Template(head: string, tail: seq<string>)

  /** The f-string evaluated with `args` substituted, in order, for its holes. */
  function Fill(t: Template, args: seq<string>): (s: string)
    requires |args| == |t.tail|
    ensures StartsWith(s, t.head)
  {
    t.head + FillHoles(t.tail, args)
  }

  /** Each value followed by the literal after its hole. */
  function FillHoles(tail: seq<string>, args: seq<string>): (s: string)
    requires |args| == |tail|
    ensures tail != [] ==> StartsWith(s, args[0])
  {
    if tail == [] then "" else args[0] + tail[0] + FillHoles(tail[1..], args[1..])
  }

  /** The values that a filled template was given can be read back when every
      literal after a hole but the last is non-empty and no value contains the
      first character of the literal that follows it. */
  predicate Separated(tail: seq<string>, args: seq<string>)
    requires |args| == |tail|
  {
    forall i :: 0 <= i < |tail| ==>
      (tail[i] == "" ==> i == |tail| - 1) && (tail[i] != "" ==> tail[i][0] !in args[i])
  }

  /** Parses `s` against `t`: the head must match, then each hole takes the
      text up to the first character of the literal that follows it, and a
      hole followed by nothing takes the rest. */
  function Unfill(t: Template, s: string): (r: Option<seq<string>>)
    ensures r.Some? ==> |r.value| == |t.tail| && Fill(t, r.value) == s
  {
    if StartsWith(s, t.head) then
      var r := UnfillHoles(t.tail, s[|t.head|..]);
      assert s == t.head + s[|t.head|..];
      r
    else None
  }

  function UnfillHoles(tail: seq<string>, s: string): (r: Option<seq<string>>)
    ensures r.Some? ==> |r.value| == |tail| && FillHoles(tail, r.value) == s
    decreases |tail|
  {
    if tail == [] then
      if s == [] then Some([]) else None
    else if tail[0] == [] then
      if |tail| == 1 then Some([s]) else None
    else
      var k := IndexOf(s, tail[0][0]);
      var lit := tail[0];
      if StartsWith(s[k..], lit) then
        match UnfillHoles(tail[1..], s[k + |lit|..])
        case None => None
        case Some(rest) =>
          assert ([s[..k]] + rest)[1..] == rest;
          assert s == s[..k] + lit + s[k + |lit|..];
          Some([s[..k]] + rest)
      else None
  }

  lemma IndexOfConcat(a: string, b: string, c: char)
    requires c !in a && b != [] && b[0] == c
    ensures IndexOf(a + b, c) == |a|
  {
    assert (a + b)[|a|] == c;
    assert forall i :: 0 <= i < |a| ==> (a + b)[i] == a[i] != c;
  }

  lemma {:induction false} UnfillFillHoles(tail: seq<string>, args: seq<string>)
    requires |args| == |tail| && Separated(tail, args)
    ensures UnfillHoles(tail, FillHoles(tail, args)) == Some(args)
    decreases |tail|
  {
    if tail == [] {
    } else if tail[0] == [] {
      assert |tail| == 1;
      assert FillHoles(tail, args) == args[0];
      assert args == [args[0]];
    } else {
      var a, lit := args[0], tail[0];
      var rest := FillHoles(tail[1..], args[1..]);
      var s := a + lit + rest;
      assert FillHoles(tail, args) == s;
      assert s == a + (lit + rest);
      IndexOfConcat(a, lit + rest, lit[0]);
      assert s[..|a|] == a;
      assert s[|a|..] == lit + rest;
      assert s[|a| + |lit|..] == rest;
      assert Separated(tail[1..], args[1..]) by {
        forall i | 0 <= i < |tail| - 1
          ensures (tail[1..][i] == "" ==> i == |tail| - 2) && (tail[1..][i] != "" ==> tail[1..][i][0] !in args[1..][i])
        {
          assert tail[1..][i] == tail[i + 1] && args[1..][i] == args[i + 1];
        }
      }
      UnfillFillHoles(tail[1..], args[1..]);
      assert [a] + args[1..] == args;
    }
  }

  /** Filling and then parsing gives back the substituted values. */
  lemma UnfillFill(t: Template, args: seq<string>)
    requires |args| == |t.tail| && Separated(t.tail, args)
    ensures Unfill(t, Fill(t, args)) == Some(args)
  {
    var s := Fill(t, args);
    assert s[|t.head|..] == FillHoles(t.tail, args);
    UnfillFillHoles(t.tail, args);
  }

  /** Hence a separated template's filled string determines its values. */
  lemma FillInjective(t: Template, args1: seq<string>, args2: seq<string>)
    requires |args1| == |t.tail| && Separated(t.tail, args1)
    requires |args2| == |t.tail| && Separated(t.tail, args2)
    requires Fill(t, args1) == Fill(t, args2)
    ensures args1 == args2
  {
    UnfillFill(t, args1);
    UnfillFill(t, args2);
  }
}
