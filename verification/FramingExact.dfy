/** Which delimiters a gateway with n values may use: an exact criterion for every n. */
module FramingExact {
  import opened Words
  import opened Framing

  // ----- vectors that do not survive

  /** A vector that the reader does not get back, alone on the wire. */
  ghost predicate Spoils(vs: seq<string>, f: string, m: string)
    requires f != "" && m != ""
  {
    vs != [] && (forall v :: v in vs ==> Clean(v, f, m))
    && Fields(Messages(Print([vs], f, m), m), f) != [vs]
  }

  lemma SpoiltByFraming(vs: seq<string>, f: string, m: string, j: nat)
    requires f != "" && m != ""
    requires vs != [] && forall v :: v in vs ==> Clean(v, f, m)
    requires j < |Join(vs, f)| && At(Join(vs, f) + m, m, j)
    ensures Spoils(vs, f, m)
  {
    var w := Join(vs, f);
    assert Print([vs], f, m) == w + m by { assert [vs][1..] == []; }
    assert Contains(w + m, m);
    var i := Find(w + m, m).value;
    var first := (w + m)[..i];
    assert i <= j;
    JoinSplit(first, f);
    assert Messages(w + m, m)[0] == first;
    assert |first| < |w|;
  }

  lemma SpoiltBySplitting(vs: seq<string>, f: string, m: string)
    requires f != "" && m != ""
    requires vs != [] && forall v :: v in vs ==> Clean(v, f, m)
    requires Split(Join(vs, f), f) != vs
    ensures Spoils(vs, f, m)
  {
    var w := Join(vs, f);
    assert Print([vs], f, m) == w + m by { assert [vs][1..] == []; }
    assert (w + m)[|w|..|w| + |m|] == m;
    assert At(w + m, m, |w|);
    var i := Find(w + m, m).value;
    if i < |w| {
      SpoiltByFraming(vs, f, m, i);
    } else {
      assert i == |w| && (w + m)[..i] == w;
      assert Messages(w + m, m)[0] == w;
    }
  }

  lemma PartFree(d: string, lo: nat, hi: nat, e: string)
    requires lo <= hi <= |d| && !Contains(d, e)
    ensures !Contains(d[lo..hi], e)
  {
    forall j ensures !At(d[lo..hi], e, j) {
      if At(d[lo..hi], e, j) {
        forall x | 0 <= x < |e| ensures d[lo + j + x] == e[x] { assert d[lo..hi][j..j + |e|][x] == d[lo + j + x]; }
        AtIfCharacters(d, e, lo + j);
        assert Contains(d, e);
      }
    }
  }

  lemma {:induction false} PieceShorter(vs: seq<string>, f: string, i: nat)
    requires i < |vs| && |vs| > 1
    ensures |vs[i]| + |f| <= |Join(vs, f)|
    decreases |vs|
  {
    if |vs| > 2 && i > 0 { PieceShorter(vs[1..], f, i - 1); }
  }

  // ----- counting pieces

  /** A part of a string never has more pieces than the whole. */
  lemma {:induction false} FewerPieces(s: string, d: string, i: nat)
    requires d != "" && i <= |s|
    ensures |Split(s[i..], d)| <= |Split(s, d)|
    decreases |s|
  {
    hide Find;
    var t := s[i..];
    if Find(t, d).Some? {
      var b := Find(t, d).value;
      FoundLater(s, d, i, b);
      var a := Find(s, d).value;
      SplitAt(s, d, a);
      SplitAt(t, d, b);
      assert t[b + |d|..] == s[a + |d|..][i + b - a..];
      FewerPieces(s[a + |d|..], d, i + b - a);
    }
  }

  lemma FoundLater(s: string, d: string, i: nat, b: nat)
    requires i <= |s| && Find(s[i..], d) == Some(b)
    ensures Find(s, d).Some? && Find(s, d).value <= i + b
  {
    assert s[i..][b..b + |d|] == s[i + b..i + b + |d|];
    assert At(s, d, i + b);
  }

  lemma PrefixPieces(x: string, y: string, d: string)
    requires d != ""
    ensures |Split(x, d)| <= |Split(x + y, d)|
  {
    SplitAppend(x, y, d);
  }

  lemma PartPieces(s: string, d: string, i: nat, j: nat)
    requires d != "" && i <= j <= |s|
    ensures |Split(s[i..j], d)| <= |Split(s, d)|
  {
    assert s[i..] == s[i..j] + s[j..];
    PrefixPieces(s[i..j], s[j..], d);
    FewerPieces(s, d, i);
  }

  // ----- the criterion

  /** Every way a prefix of m can begin inside a response and end in its delimiter has too many fields. */
  ghost predicate BordersGuarded(n: nat, f: string, m: string)
    requires f != ""
  {
    forall k :: 0 < k < |m| && Agree(m, m, k) ==> |Split(m[..k], f)| > n
  }

  /** n = 1 never uses the field delimiter. From n = 2 on it must have no border and not contain the
      message delimiter; and either the message delimiter has more fields than a response, or the two
      never overlap. */
  ghost predicate Readable(n: nat, f: string, m: string)
    requires f != ""
  {
    BordersGuarded(n, f, m)
    && (n >= 2 ==>
          !Contains(f, m) && Unbordered(f)
          && if Contains(m, f) then n < |Split(m, f)| else NoClash(f, m) && NoClash(m, f))
  }

  // ----- readable delimiters suffice

  lemma JoinedPieces(vs: seq<string>, n: nat, f: string, m: string)
    requires f != "" && |vs| == n >= 1 && (n >= 2 ==> Unbordered(f)) && forall v :: v in vs ==> Clean(v, f, m)
    ensures Split(Join(vs, f), f) == vs
  {
    assert Clean(vs[0], f, m);
    if n == 1 {
      assert Join(vs, f) == vs[0] && vs == [vs[0]];
    } else {
      SplitJoin(vs, f);
    }
  }

  lemma MessageInResponse(vs: seq<string>, n: nat, f: string, m: string, j: nat)
    requires f != "" && |vs| == n >= 1 && At(Join(vs, f), m, j) && Split(Join(vs, f), f) == vs
    ensures |Split(m, f)| <= n && (n == 1 ==> Contains(vs[0], m))
  {
    hide Find, Split;
    PartPieces(Join(vs, f), f, j, j + |m|);
  }

  lemma NoEarlyEnd(vs: seq<string>, n: nat, f: string, m: string, z: string, j: nat)
    requires f != "" && m != "" && Readable(n, f, m) && |vs| == n >= 1 && (n == 1 || Contains(m, f))
    requires (forall v :: v in vs ==> Clean(v, f, m)) && j < |Join(vs, f)|
    ensures !At(Join(vs, f) + m + z, m, j)
  {
    hide Find;
    var w := Join(vs, f);
    var s, k := w + m + z, |w| - j;
    JoinedPieces(vs, n, f, m);
    assert Clean(vs[0], f, m);
    if At(s, m, j) {
      assert s[|w|..|w| + |m|] == m;
      if k >= |m| {
        assert s[j..j + |m|] == w[j..j + |m|];
        MessageInResponse(vs, n, f, m, j);
        assert false;
      } else {
        OverlapAgrees(s, m, j, m, |w|);
        assert w[j..|w|] == m[..k] by { assert s[j..j + |m|][..k] == s[j..j + k]; }
        PartPieces(w, f, j, |w|);
        assert false;
      }
    }
  }

  lemma PrintedSplits(vs: seq<string>, n: nat, f: string, m: string, z: string)
    requires f != "" && m != "" && Readable(n, f, m) && |vs| == n >= 1
    requires forall v :: v in vs ==> Clean(v, f, m)
    ensures Split(Join(vs, f) + m + z, m) == [Join(vs, f)] + Split(z, m)
  {
    hide Find, Split, Join;
    if n == 1 || Contains(m, f) {
      var w := Join(vs, f);
      var s := w + m + z;
      forall j | 0 <= j < |w| ensures !At(s, m, j) { NoEarlyEnd(vs, n, f, m, z, j); }
      assert s[|w|..|w| + |m|] == m;
      FindIs(s, m, |w|);
      SplitAt(s, m, |w|);
      assert s[..|w|] == w && s[|w| + |m|..] == z;
    } else {
      assert Unbordered(m) by {
        forall k | 0 < k < |m| && Agree(m, m, k) ensures false {
          NoFieldInside(m, k, f);
          assert false;
        }
      }
      SplitPrinted(vs, f, m, z);
    }
  }

  lemma NoFieldInside(m: string, k: nat, f: string)
    requires k <= |m| && f != "" && !Contains(m, f)
    ensures |Split(m[..k], f)| == 1
  {
    PartFree(m, 0, k, f);
    assert m[0..k] == m[..k];
  }

  /** The first response, and those after it, are responses too. */
  lemma FirstResponse(rs: seq<seq<string>>, n: nat, f: string, m: string)
    requires Responses(rs, n, f, m) && rs != []
    ensures |rs[0]| == n && (forall v :: v in rs[0] ==> Clean(v, f, m)) && Responses(rs[1..], n, f, m)
  {
    hide Clean;
    assert rs[0] in rs && forall r :: r in rs[1..] ==> r in rs;
  }

  lemma PrintedFirst(rs: seq<seq<string>>, n: nat, f: string, m: string)
    requires f != "" && m != "" && n >= 1 && Readable(n, f, m) && Responses(rs, n, f, m) && rs != []
    ensures var z := Print(rs[1..], f, m);
            Messages(Print(rs, f, m), m) == [Join(rs[0], f)] + Messages(z, m)
            && Remainder(Print(rs, f, m), m) == Remainder(z, m)
    ensures Split(Join(rs[0], f), f) == rs[0] && Responses(rs[1..], n, f, m)
  {
    hide Split, Find, Join, Readable, Clean, Responses;
    var z := Print(rs[1..], f, m);
    FirstResponse(rs, n, f, m);
    PrintedSplits(rs[0], n, f, m, z);
    ReadablePieces(rs[0], n, f, m);
    assert Init([Join(rs[0], f)] + Split(z, m)) == [Join(rs[0], f)] + Init(Split(z, m));
  }

  lemma ReadablePieces(vs: seq<string>, n: nat, f: string, m: string)
    requires f != "" && Readable(n, f, m) && |vs| == n >= 1 && forall v :: v in vs ==> Clean(v, f, m)
    ensures Split(Join(vs, f), f) == vs
  {
    hide Split, Join;
    JoinedPieces(vs, n, f, m);
  }

  lemma {:induction false} ReadableRoundTrip(rs: seq<seq<string>>, n: nat, f: string, m: string)
    requires f != "" && m != "" && n >= 1 && Readable(n, f, m) && Responses(rs, n, f, m)
    ensures Fields(Messages(Print(rs, f, m), m), f) == rs && Remainder(Print(rs, f, m), m) == ""
  {
    hide Split, Find, Join, Readable, Responses, Messages, Remainder;
    if rs == [] {
      NothingPrinted(f, m);
    } else {
      PrintedFirst(rs, n, f, m);
      ReadableRoundTrip(rs[1..], n, f, m);
      var ms := Messages(Print(rs[1..], f, m), m);
      assert ([Join(rs[0], f)] + ms)[1..] == ms;
      assert rs == [rs[0]] + rs[1..];
    }
  }

  lemma NothingPrinted(f: string, m: string)
    requires f != "" && m != ""
    ensures Fields(Messages(Print([], f, m), m), f) == [] && Remainder(Print([], f, m), m) == ""
  {
    EmptySplit(m);
  }

  // ----- and they are needed, for each n

  function Blanks(n: nat): seq<string>
  {
    seq(n, _ => "")
  }

  lemma BlanksAreClean(n: nat, f: string, m: string)
    requires f != "" && m != ""
    ensures forall v :: v in Blanks(n) ==> Clean(v, f, m)
  {
  }

  lemma {:induction false} PadEnd(vs: seq<string>, n: nat, f: string)
    requires vs != []
    ensures |Join(vs, f)| <= |Join(vs + Blanks(n), f)| && Join(vs + Blanks(n), f)[..|Join(vs, f)|] == Join(vs, f)
    decreases |vs|
  {
    if |vs| == 1 {
      assert vs + Blanks(n) == [vs[0]] + Blanks(n) && ([vs[0]] + Blanks(n))[1..] == Blanks(n);
      assert n == 0 ==> vs + Blanks(n) == vs;
    } else {
      assert (vs + Blanks(n))[1..] == vs[1..] + Blanks(n);
      PadEnd(vs[1..], n, f);
    }
  }

  lemma JoinFirst(vs: seq<string>, f: string)
    requires |vs| > 1
    ensures Join(vs, f) == vs[0] + f + Join(vs[1..], f)
  {
  }

  lemma BlankFirst(x: seq<string>, f: string)
    requires x != []
    ensures Join([""] + x, f) == f + Join(x, f)
  {
    hide Join;
    var y := [""] + x;
    JoinFirst(y, f);
    assert y[1..] == x && y[0] + f == f;
  }

  lemma {:induction false} PadFront(vs: seq<string>, n: nat, f: string) returns (u: string)
    requires vs != []
    ensures Join(Blanks(n) + vs, f) == u + Join(vs, f)
    decreases n
  {
    hide Join;
    if n == 0 {
      u := "";
      assert Blanks(0) + vs == vs;
    } else {
      var t := PadFront(vs, n - 1, f);
      assert Blanks(n) + vs == [""] + (Blanks(n - 1) + vs);
      BlankFirst(Blanks(n - 1) + vs, f);
      u := f + t;
    }
  }

  /** A response of n values with a message delimiter in the joined fields of some of them. */
  lemma SpoiltInside(vs: seq<string>, n: nat, f: string, m: string, j: nat)
    requires f != "" && m != "" && vs != [] && |vs| <= n && forall v :: v in vs ==> Clean(v, f, m)
    requires At(Join(vs, f), m, j)
    ensures exists ws :: |ws| == n && Spoils(ws, f, m)
  {
    hide Find, Split;
    var ws := vs + Blanks(n - |vs|);
    PadEnd(vs, n - |vs|, f);
    BlanksAreClean(n - |vs|, f, m);
    assert Join(ws, f) == Join(vs, f) + Join(ws, f)[|Join(vs, f)|..];
    AtPrefix(Join(vs, f), Join(ws, f)[|Join(vs, f)|..], m);
    AtPrefix(Join(ws, f), m, m);
    SpoiltByFraming(ws, f, m, j);
  }

  lemma MessageInField(n: nat, f: string, m: string)
    requires f != "" && m != "" && n >= 2 && Contains(f, m)
    ensures exists ws :: |ws| == n && Spoils(ws, f, m)
  {
    var vs := ["", ""];
    assert Join(vs, f) == f by { assert vs[1..] == [""]; }
    var k :| At(f, m, k);
    BlanksAreClean(2, f, m);
    assert vs == Blanks(2);
    SpoiltInside(vs, n, f, m, k);
  }

  lemma FieldsInMessage(n: nat, f: string, m: string)
    requires f != "" && m != "" && Contains(m, f) && |Split(m, f)| <= n
    ensures exists ws :: |ws| == n && Spoils(ws, f, m)
  {
    var vs := Split(m, f);
    JoinSplit(m, f);
    SplitPiecesFree(m, f);
    assert |vs| > 1;
    forall v | v in vs ensures Clean(v, f, m) {
      var i :| 0 <= i < |vs| && vs[i] == v;
      PieceShorter(vs, f, i);
    }
    assert m[0..|m|] == m;
    SpoiltInside(vs, n, f, m, 0);
  }

  /** f laid over its own first part is found there. */
  lemma BorderFound(f: string, k: nat, y: string)
    requires f != "" && 0 < k < |f| && Agree(f, f, k)
    ensures Find(f[..k] + f + y, f) == Some(0)
  {
    var x := f[..k] + f;
    forall i | 0 <= i < |f| ensures x[0 + i] == f[i] { if i >= k { assert f[k + (i - k)] == f[i - k]; } }
    AtIfCharacters(x, f, 0);
    AtPrefix(x, y, f);
    FindIs(x + y, f, 0);
  }

  lemma FieldBordered(n: nat, f: string, m: string, k: nat)
    requires f != "" && m != "" && n >= 2 && !Contains(f, m) && 0 < k < |f| && Agree(f, f, k)
    ensures exists ws :: |ws| == n && Spoils(ws, f, m)
  {
    hide Find, Split, Join, Spoils;
    var vs := [f[..k]] + Blanks(n - 1);
    BorderBreaksSplit(f, k);
    PartFree(f, 0, k, m);
    assert f[0..k] == f[..k];
    BlanksAreClean(n - 1, f, m);
    BlankSecond(f[..k], n, f);
    var y := Join(vs, f)[k + |f|..];
    BorderFound(f, k, y);
    assert Join(vs, f) == f[..k] + f + y;
    SplitAt(Join(vs, f), f, 0);
    assert Split(Join(vs, f), f)[0] == "" && vs[0] == f[..k];
    SpoiltBySplitting(vs, f, m);
  }

  lemma BlankSecond(v: string, n: nat, f: string)
    requires n >= 2
    ensures |Join([v] + Blanks(n - 1), f)| >= |v| + |f| && Join([v] + Blanks(n - 1), f)[..|v| + |f|] == v + f
  {
    assert ([v] + Blanks(n - 1))[1..] == Blanks(n - 1);
  }

  lemma FieldRunsOn(n: nat, f: string, m: string, k: nat)
    requires f != "" && m != "" && n >= 2 && !Contains(f, m) && !Contains(m, f)
    requires 0 <= k < |f| && Agree(f, m, k)
    ensures exists ws :: |ws| == n && Spoils(ws, f, m)
  {
    if k + |m| <= |f| { AtIfCharacters(f, m, k); }
    var rest := m[|f| - k..];
    var vs := ["", rest];
    PartFree(m, |f| - k, |m|, f);
    assert m[|f| - k..|m|] == rest;
    ShorterIsFree(rest, m);
    BlanksAreClean(1, f, m);
    assert "" in Blanks(1) by { assert Blanks(1)[0] == ""; }
    var s := f + rest;
    assert Join(vs, f) == s by { assert vs[1..] == [rest]; }
    forall x | 0 <= x < |m| ensures s[k + x] == m[x] { if x < |f| - k { assert f[k + x] == m[x]; } }
    AtIfCharacters(s, m, k);
    SpoiltInside(vs, n, f, m, k);
  }

  lemma ShorterIsFree(v: string, m: string)
    requires |v| < |m|
    ensures !Contains(v, m)
  {
  }

  lemma MessageRunsOn(n: nat, f: string, m: string, k: nat)
    requires f != "" && m != "" && n >= 2 && !Contains(f, m) && !Contains(m, f)
    requires 0 <= k < |m| && Agree(m, f, k)
    ensures exists ws :: |ws| == n && Spoils(ws, f, m)
  {
    if k + |f| <= |m| { AtIfCharacters(m, f, k); }
    var vs := [m[..k], ""];
    PartFree(m, 0, k, f);
    assert m[0..k] == m[..k];
    ShorterIsFree(m[..k], m);
    BlanksAreClean(1, f, m);
    assert "" in Blanks(1) by { assert Blanks(1)[0] == ""; }
    var s := m[..k] + f;
    assert Join(vs, f) == s by { assert vs[1..] == [""]; }
    forall x | 0 <= x < |m| ensures s[0 + x] == m[x] { if x >= k { assert m[k + (x - k)] == f[x - k]; } }
    AtIfCharacters(s, m, 0);
    SpoiltInside(vs, n, f, m, 0);
  }

  lemma BorderPieces(n: nat, f: string, m: string, k: nat) returns (vs: seq<string>)
    requires f != "" && m != "" && 0 < k < |m|
    ensures vs == Split(m[..k], f) && Join(vs, f) == m[..k] && forall v :: v in vs ==> Clean(v, f, m)
  {
    hide Find, Split;
    vs := Split(m[..k], f);
    JoinSplit(m[..k], f);
    SplitPiecesFree(m[..k], f);
    forall v | v in vs ensures Clean(v, f, m) {
      var i :| 0 <= i < |vs| && vs[i] == v;
      if |vs| > 1 { PieceShorter(vs, f, i); } else { assert v == m[..k]; }
      ShorterIsFree(v, m);
    }
  }

  /** m is found where its border begins. */
  lemma BorderEnds(u: string, m: string, k: nat)
    requires 0 < k < |m| && Agree(m, m, k)
    ensures At(u + m[..k] + m, m, |u|)
  {
    var s := u + m[..k] + m;
    forall x | 0 <= x < |m| ensures s[|u| + x] == m[x] {
      if x >= k { assert m[k + (x - k)] == m[x - k]; }
    }
    AtIfCharacters(s, m, |u|);
  }

  lemma MessageBordered(n: nat, f: string, m: string, k: nat)
    requires f != "" && m != "" && 0 < k < |m| && Agree(m, m, k) && |Split(m[..k], f)| <= n
    ensures exists ws :: |ws| == n && Spoils(ws, f, m)
  {
    hide Find, Split, Join, Spoils, Contains;
    var vs := BorderPieces(n, f, m, k);
    var ws := Blanks(n - |vs|) + vs;
    var u := PadFront(vs, n - |vs|, f);
    BlanksAreClean(n - |vs|, f, m);
    BorderEnds(u, m, k);
    SpoiltByFraming(ws, f, m, |u|);
  }

  lemma UnreadableSpoils(n: nat, f: string, m: string)
    requires f != "" && m != "" && n >= 1 && !Readable(n, f, m)
    ensures exists ws :: |ws| == n && Spoils(ws, f, m)
  {
    hide Split, Spoils, Contains;
    if !BordersGuarded(n, f, m) {
      var k :| 0 < k < |m| && Agree(m, m, k) && |Split(m[..k], f)| <= n;
      MessageBordered(n, f, m, k);
    } else if Contains(f, m) {
      MessageInField(n, f, m);
    } else if !Unbordered(f) {
      var k :| 0 < k < |f| && Agree(f, f, k);
      FieldBordered(n, f, m, k);
    } else if Contains(m, f) {
      FieldsInMessage(n, f, m);
    } else if !NoClash(f, m) {
      var k :| 0 <= k < |f| && Agree(f, m, k);
      FieldRunsOn(n, f, m, k);
    } else {
      var k :| 0 <= k < |m| && Agree(m, f, k);
      MessageRunsOn(n, f, m, k);
    }
  }

  /** A gateway with n values is always read back exactly iff its delimiters are readable for n. */
  lemma RoundTripIffReadable(n: nat, f: string, m: string)
    requires f != "" && m != "" && n >= 1
    ensures (forall rs :: Responses(rs, n, f, m) ==> Fields(Messages(Print(rs, f, m), m), f) == rs)
       <==> Readable(n, f, m)
  {
    hide Readable;
    if Readable(n, f, m) {
      forall rs | Responses(rs, n, f, m) ensures Fields(Messages(Print(rs, f, m), m), f) == rs {
        ReadableRoundTrip(rs, n, f, m);
      }
    } else {
      UnreadableSpoils(n, f, m);
      var ws :| |ws| == n && Spoils(ws, f, m);
      assert Responses([ws], n, f, m);
      assert Fields(Messages(Print([ws], f, m), m), f) != [ws];
    }
  }

  /** Delimiters that never overlap are readable for every number of values. */
  lemma OverlapFreeIsReadable(n: nat, f: string, m: string)
    requires f != "" && m != "" && OverlapFree(f, m)
    ensures Readable(n, f, m)
  {
    if Contains(f, m) {
      var i :| At(f, m, i);
      OverlapAgrees(f, f, 0, m, i);
    }
    if Contains(m, f) {
      var i :| At(m, f, i);
      OverlapAgrees(m, m, 0, f, i);
    }
  }

  /** For all numbers of values at once: iff the two delimiters never overlap. */
  lemma RoundTripIffOverlapFree(f: string, m: string)
    requires f != "" && m != ""
    ensures (forall rs, n: nat :: n >= 1 && Responses(rs, n, f, m) ==> Fields(Messages(Print(rs, f, m), m), f) == rs)
       <==> OverlapFree(f, m)
  {
    hide Readable, Responses, Fields, Messages;
    if OverlapFree(f, m) {
      forall rs, n: nat | n >= 1 && Responses(rs, n, f, m)
        ensures Fields(Messages(Print(rs, f, m), m), f) == rs
      {
        OverlapFreeIsReadable(n, f, m);
        ReadableRoundTrip(rs, n, f, m);
      }
    } else {
      var n := |Split(m, f)| + 1;
      OverlapUnreadable(n, f, m);
      RoundTripIffReadable(n, f, m);
    }
  }

  lemma OverlapUnreadable(n: nat, f: string, m: string)
    requires f != "" && m != "" && n > |Split(m, f)| && !OverlapFree(f, m)
    ensures !Readable(n, f, m)
  {
    if Readable(n, f, m) && !Contains(m, f) {
      assert Unbordered(m) by {
        forall k | 0 < k < |m| && Agree(m, m, k) ensures false { NoFieldInside(m, k, f); assert false; }
      }
    }
  }

  // ----- the constructor's own check

  /** The constructor asks only that the field delimiter does not contain the message delimiter. These
      pairs pass it and are unreadable from two values on; the second is readable with one value. */
  lemma ConstructorCheckTooWeak()
    ensures !Contains(",", ";,") && !OverlapFree(",", ";,")
    ensures !Contains("aa", ";") && !OverlapFree("aa", ";")
    ensures forall n: nat :: n >= 2 ==> !Readable(n, ",", ";,") && !Readable(n, "aa", ";")
    ensures Readable(1, "aa", ";")
  {
    FieldInEnd();
    assert Agree(";,", ",", 1);
    assert !NoClash(";,", ",");
    assert Agree("aa", "aa", 1);
    assert !Unbordered("aa");
    forall i ensures !At("aa", ";", i) {
      if 0 <= i <= 1 { assert "aa"[i..i + 1][0] == 'a'; }
    }
  }

  /** A gateway with no values sends the empty line, which reads back as one empty field. */
  lemma NoValuesReadAsOne(f: string, m: string)
    requires f != "" && m != ""
    ensures Fields(Messages(Print([[]], f, m), m), f) == [[""]]
  {
    var none: seq<seq<string>> := [[]];
    assert Print(none, f, m) == m by { assert none[1..] == []; }
    assert At(m, m, 0);
    FindIs(m, m, 0);
    assert Split(m, m) == [m[..0]] + Split(m[0 + |m|..], m);
    assert Messages(m, m) == [""];
  }

  lemma FieldInEnd()
    ensures Contains(";,", ",") && Split(";,", ",") == [";", ""]
  {
    assert ";,"[1..2] == ",";
    assert At(";,", ",", 1);
    assert !At(";,", ",", 0) by { assert ";,"[0..1] == ";"; }
    FindIs(";,", ",", 1);
    SplitAt(";,", ",", 1);
    assert ";,"[..1] == ";" && ";,"[2..] == "";
    EmptySplit(",");
  }
}
