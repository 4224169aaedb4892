/** The two levels of the gateway protocol: fields joined by one delimiter, messages ended by
    another. The theorem is an exact criterion for the pair of delimiters. */
module Framing {
  import opened Words

  /** The bytes SendResponse writes for a list of value vectors. */
  function Print(rs: seq<seq<string>>, f: string, m: string): string
  {
    if rs == [] then "" else Join(rs[0], f) + m + Print(rs[1..], f, m)
  }

  lemma {:induction false} PrintAppend(rs: seq<seq<string>>, r: seq<string>, f: string, m: string)
    ensures Print(rs + [r], f, m) == Print(rs, f, m) + (Join(r, f) + m)
  {
    if rs == [] {
      assert [r][1..] == [];
    } else {
      assert (rs + [r])[1..] == rs[1..] + [r];
      PrintAppend(rs[1..], r, f, m);
    }
  }

  /** The complete messages of a byte stream; what follows the last delimiter is not one. */
  function Messages(s: string, m: string): seq<string>
    requires m != ""
  {
    Init(Split(s, m))
  }

  function Remainder(s: string, m: string): string
    requires m != ""
  {
    Last(Split(s, m))
  }

  function Fields(ms: seq<string>, f: string): seq<seq<string>>
    requires f != ""
  {
    if ms == [] then [] else [Split(ms[0], f)] + Fields(ms[1..], f)
  }

  /** A value SetValue accepts. */
  ghost predicate Clean(v: string, f: string, m: string)
  {
    !Contains(v, f) && !Contains(v, m)
  }

  /** Responses of one gateway with n values, every value accepted by SetValue. */
  ghost predicate Responses(rs: seq<seq<string>>, n: nat, f: string, m: string)
  {
    forall r :: r in rs ==> |r| == n && forall v :: v in r ==> Clean(v, f, m)
  }

  // ----- overlap-free delimiters suffice

  lemma {:induction false} NoEarlyMessageEnd(vs: seq<string>, f: string, m: string, z: string, j: nat)
    requires f != "" && m != "" && OverlapFree(f, m)
    requires vs != [] && forall v :: v in vs ==> Clean(v, f, m)
    requires j < |Join(vs, f)|
    ensures !At(Join(vs, f) + m + z, m, j)
  {
    var v, w := vs[0], Join(vs, f);
    assert Clean(v, f, m);
    if |vs| == 1 {
      NoEndInValue(v, m, z, m, j);
      assert v + m + z == w + m + z;
    } else {
      var t := Join(vs[1..], f) + m + z;
      assert w + m + z == v + f + t;
      if j < |v| {
        NoEndInValue(v, f, t, m, j);
      } else if j < |v| + |f| {
        NoEndInDelimiter(v, f, t, m, j);
      } else {
        NoEarlyMessageEnd(vs[1..], f, m, z, j - |v| - |f|);
        AtSuffix(v + f, t, m, j);
      }
    }
  }

  lemma NoEndInValue(v: string, d: string, t: string, m: string, j: nat)
    requires m != "" && !Contains(v, m) && j < |v| && forall k :: 0 < k < |m| ==> !Agree(m, d, k)
    ensures !At(v + d + t, m, j)
  {
    var s := v + d + t;
    assert s == v + (d + t);
    AtPrefix(v, d + t, m);
    assert s[|v|..|v| + |d|] == d;
    if |v| < j + |m| && At(s, m, j) { OverlapAgrees(s, m, j, d, |v|); }
  }

  lemma NoEndInDelimiter(v: string, f: string, t: string, m: string, j: nat)
    requires NoClash(f, m) && |v| <= j < |v| + |f|
    ensures !At(v + f + t, m, j)
  {
    var s := v + f + t;
    assert s[|v|..|v| + |f|] == f;
    if At(s, m, j) { OverlapAgrees(s, f, |v|, m, j); }
  }

  lemma AtSuffix(p: string, t: string, m: string, j: nat)
    requires |p| <= j
    ensures At(p + t, m, j) <==> At(t, m, j - |p|)
  {
    assert j + |m| <= |p + t| ==> (p + t)[j..j + |m|] == t[j - |p|..j - |p| + |m|];
  }

  lemma SplitPrinted(vs: seq<string>, f: string, m: string, z: string)
    requires f != "" && m != "" && OverlapFree(f, m)
    requires vs != [] && forall v :: v in vs ==> Clean(v, f, m)
    ensures Find(Join(vs, f) + m + z, m) == Some(|Join(vs, f)|)
    ensures Split(Join(vs, f) + m + z, m) == [Join(vs, f)] + Split(z, m)
  {
    var w := Join(vs, f);
    var s := w + m + z;
    forall j | 0 <= j < |w| ensures !At(s, m, j) { NoEarlyMessageEnd(vs, f, m, z, j); }
    assert s[|w|..|w| + |m|] == m;
    FindIs(s, m, |w|);
    assert s[..|w|] == w && s[|w| + |m|..] == z;
  }

  /** Non-empty vectors of clean values, of any lengths. */
  ghost predicate CleanVectors(rs: seq<seq<string>>, f: string, m: string)
  {
    forall r :: r in rs ==> r != [] && forall v :: v in r ==> Clean(v, f, m)
  }

  lemma CleanTail(rs: seq<seq<string>>, f: string, m: string)
    requires rs != [] && CleanVectors(rs, f, m)
    ensures CleanVectors(rs[1..], f, m)
  {
    forall r | r in rs[1..] ensures r in rs {}
  }

  function Joined(rs: seq<seq<string>>, f: string): seq<string>
  {
    if rs == [] then [] else [Join(rs[0], f)] + Joined(rs[1..], f)
  }

  lemma {:induction false} MessagesOfPrint(rs: seq<seq<string>>, f: string, m: string)
    requires f != "" && m != "" && OverlapFree(f, m) && CleanVectors(rs, f, m)
    ensures Messages(Print(rs, f, m), m) == Joined(rs, f) && Remainder(Print(rs, f, m), m) == ""
  {
    if rs == [] {
      assert Split("", m) == [""];
    } else {
      var z := Print(rs[1..], f, m);
      assert rs[0] in rs;
      SplitPrinted(rs[0], f, m, z);
      CleanTail(rs, f, m);
      MessagesOfPrint(rs[1..], f, m);
      assert Messages(Print(rs, f, m), m) == [Join(rs[0], f)] + Messages(z, m);
    }
  }

  lemma {:induction false} FieldsOfJoined(rs: seq<seq<string>>, f: string, m: string)
    requires f != "" && Unbordered(f) && CleanVectors(rs, f, m)
    ensures Fields(Joined(rs, f), f) == rs
  {
    if rs != [] {
      assert rs[0] in rs;
      assert forall v :: v in rs[0] ==> Clean(v, f, m) ==> !Contains(v, f);
      SplitJoin(rs[0], f);
      CleanTail(rs, f, m);
      FieldsOfJoined(rs[1..], f, m);
      assert Joined(rs, f)[1..] == Joined(rs[1..], f);
    }
  }

  lemma OverlapFreeRoundTrip(rs: seq<seq<string>>, f: string, m: string)
    requires f != "" && m != "" && OverlapFree(f, m) && CleanVectors(rs, f, m)
    ensures Fields(Messages(Print(rs, f, m), m), f) == rs
    ensures Remainder(Print(rs, f, m), m) == ""
  {
    MessagesOfPrint(rs, f, m);
    FieldsOfJoined(rs, f, m);
  }

  /** The default delimiters qualify. */
  lemma DefaultsQualify()
    ensures OverlapFree(" ", "\r\n")
  {
    var f, m := " ", "\r\n";
    assert m[0] == '\r' && m[1] == '\n' && f[0] == ' ';
    assert !Agree(m, m, 1) by { assert m[1 + 0] != m[0]; }
    DisjointAlphabetsOverlapFree(f, m);
  }

  // ----- framing does not depend on how recv cuts the stream

  lemma MessagesAppend(x: string, y: string, m: string)
    requires m != ""
    ensures Messages(x + y, m) == Messages(x, m) + Messages(Remainder(x, m) + y, m)
    ensures Remainder(x + y, m) == Remainder(Remainder(x, m) + y, m)
  {
    SplitAppend(x, y, m);
  }

  /** The bytes of the first k messages. */
  lemma {:induction false} StreamPrefix(w: string, m: string, k: nat) returns (x: string)
    requires m != "" && k <= |Messages(w, m)|
    ensures x <= w && Messages(x, m) == Messages(w, m)[..k] && Remainder(x, m) == ""
    decreases k
  {
    hide Find, Split;
    if k == 0 {
      x := "";
      EmptySplit(m);
    } else {
      HasMessage(w, m);
      var i := Find(w, m).value;
      var head, rest := w[..i + |m|], w[i + |m|..];
      SplitAt(w, m, i);
      assert w == head + rest && head[..i] == w[..i];
      assert Messages(w, m) == [w[..i]] + Messages(rest, m);
      HeadEnds(head, rest, m, i);
      var y := StreamPrefix(rest, m, k - 1);
      FirstMessage(head, y, m, i);
      x := head + y;
      assert ([w[..i]] + Messages(rest, m))[..k] == [w[..i]] + Messages(rest, m)[..k - 1];
    }
  }

  lemma HasMessage(w: string, m: string)
    requires m != "" && Messages(w, m) != []
    ensures Find(w, m).Some?
  {
    hide Find;
  }

  lemma FirstMessage(head: string, y: string, m: string, i: nat)
    requires m != "" && Find(head, m) == Some(i) && |head| == i + |m|
    ensures Messages(head + y, m) == [head[..i]] + Messages(y, m) && Remainder(head + y, m) == Remainder(y, m)
  {
    hide Find, Split;
    SplitHead(head, y, m);
    assert head[i + |m|..] + y == y;
  }

  lemma EmptySplit(m: string)
    requires m != ""
    ensures Split("", m) == [""]
  {
  }

  lemma HeadEnds(head: string, rest: string, m: string, i: nat)
    requires Find(head + rest, m) == Some(i) && |head| == i + |m|
    ensures Find(head, m) == Some(i)
  {
    AtPrefix(head, rest, m);
    FindIs(head, m, i);
  }
}
