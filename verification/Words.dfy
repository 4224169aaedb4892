/** Words over characters: the leftmost search of std::string::find, the split loop of
    Gateway::ForwardUp and Gateway::RunThread, and the join loop of Gateway::SendResponse. */
module Words {

  datatype Option<+T> = None | Some(value: T)

  /** d occurs in s at offset i. */
  predicate At(s: string, d: string, i: int)
  {
    0 <= i && i + |d| <= |s| && s[i..i + |d|] == d
  }

  ghost predicate Contains(s: string, d: string)
  {
    exists i :: At(s, d, i)
  }

  function FindFrom(s: string, d: string, i: nat): (r: Option<nat>)
    ensures r.Some? ==> i <= r.value && At(s, d, r.value)
    ensures forall j :: i <= j && (r.None? || j < r.value) ==> !At(s, d, j)
    decreases |s| - i
  {
    if i + |d| > |s| then None
    else if At(s, d, i) then Some(i)
    else FindFrom(s, d, i + 1)
  }

  /** std::string::find from the start: the leftmost occurrence, None for npos. */
  function Find(s: string, d: string): (r: Option<nat>)
    ensures r.Some? ==> At(s, d, r.value) && forall j :: 0 <= j < r.value ==> !At(s, d, j)
    ensures r.None? <==> !Contains(s, d)
  {
    FindFrom(s, d, 0)
  }

  /** An occurrence inside the first part of s + z is an occurrence in s. */
  lemma AtPrefix(s: string, z: string, d: string)
    ensures forall j :: At(s, d, j) ==> At(s + z, d, j)
    ensures forall j :: j + |d| <= |s| && At(s + z, d, j) ==> At(s, d, j)
  {
    forall j | 0 <= j && j + |d| <= |s| ensures At(s + z, d, j) <==> At(s, d, j) {
      assert (s + z)[j..j + |d|] == s[j..j + |d|];
    }
  }

  lemma FindIs(s: string, d: string, i: nat)
    requires At(s, d, i) && forall j :: 0 <= j < i ==> !At(s, d, j)
    ensures Find(s, d) == Some(i)
  {
  }

  /** The pieces between the leftmost non-overlapping occurrences of d. */
  function Split(s: string, d: string): (r: seq<string>)
    requires d != ""
    ensures |r| > 0
    decreases |s|
  {
    match Find(s, d)
    case None => [s]
    case Some(i) => [s[..i]] + Split(s[i + |d|..], d)
  }

  function Last<T>(s: seq<T>): T
    requires |s| > 0
  {
    s[|s| - 1]
  }

  function Init<T>(s: seq<T>): seq<T>
    requires |s| > 0
  {
    s[..|s| - 1]
  }

  /** v_0 d v_1 d ... d v_n. */
  function Join(vs: seq<string>, d: string): string
  {
    if vs == [] then ""
    else if |vs| == 1 then vs[0]
    else vs[0] + d + Join(vs[1..], d)
  }

  // ----- facts that hold for every delimiter

  lemma {:induction false} SplitAt(s: string, d: string, i: nat)
    requires d != "" && Find(s, d) == Some(i)
    ensures i + |d| <= |s| && Split(s, d) == [s[..i]] + Split(s[i + |d|..], d)
  {
    hide Find;
    match Find(s, d) {
      case None =>
      case Some(_) =>
    }
  }

  lemma {:induction false} JoinSplit(s: string, d: string)
    requires d != ""
    ensures Join(Split(s, d), d) == s
    decreases |s|
  {
    if Find(s, d).Some? {
      var i := Find(s, d).value;
      JoinSplit(s[i + |d|..], d);
      assert Split(s, d)[1..] == Split(s[i + |d|..], d);
      assert s == s[..i] + s[i..i + |d|] + s[i + |d|..];
    }
  }

  lemma {:induction false} SplitPiecesFree(s: string, d: string)
    requires d != ""
    ensures forall p :: p in Split(s, d) ==> !Contains(p, d)
    decreases |s|
  {
    if Find(s, d).Some? {
      var i := Find(s, d).value;
      SplitPiecesFree(s[i + |d|..], d);
      AtPrefix(s[..i], s[i..], d);
      assert s[..i] + s[i..] == s;
    }
  }

  lemma FindAppend(x: string, y: string, d: string)
    requires Find(x, d).Some?
    ensures Find(x + y, d) == Find(x, d)
  {
    AtPrefix(x, y, d);
    FindIs(x + y, d, Find(x, d).value);
  }

  lemma SplitHead(x: string, y: string, m: string)
    requires m != "" && Find(x, m).Some?
    ensures var i := Find(x, m).value; Split(x + y, m) == [x[..i]] + Split(x[i + |m|..] + y, m)
  {
    var i := Find(x, m).value;
    FindAppend(x, y, m);
    SplitAt(x + y, m, i);
    assert (x + y)[..i] == x[..i] && (x + y)[i + |m|..] == x[i + |m|..] + y;
  }

  /** Splitting a prefix first changes nothing: only the last piece can still grow. */
  lemma {:induction false} SplitAppend(x: string, y: string, d: string)
    requires d != ""
    ensures Split(x + y, d) == Init(Split(x, d)) + Split(Last(Split(x, d)) + y, d)
    decreases |x|
  {
    hide Find;
    if Find(x, d).Some? {
      var i := Find(x, d).value;
      FindAppend(x, y, d);
      SplitAt(x, d, i);
      SplitAt(x + y, d, i);
      var x' := x[i + |d|..];
      SplitAppend(x', y, d);
      assert (x + y)[..i] == x[..i];
      assert (x + y)[i + |d|..] == x' + y;
      assert Init(Split(x, d)) == [x[..i]] + Init(Split(x', d));
    }
  }

  // ----- overlaps of occurrences

  /** b laid over a at offset k agrees with a wherever both have a character. */
  predicate Agree(a: string, b: string, k: nat)
  {
    forall x :: 0 <= x < |b| && k + x < |a| ==> a[k + x] == b[x]
  }

  /** No proper non-empty prefix of d is also a suffix of d. */
  predicate Unbordered(d: string)
  {
    forall k :: 0 < k < |d| ==> !Agree(d, d, k)
  }

  /** Neither word contains the other and no suffix of a starts b. */
  predicate NoClash(a: string, b: string)
  {
    forall k :: 0 <= k < |a| ==> !Agree(a, b, k)
  }

  /** No two occurrences of the two words can ever overlap. */
  predicate OverlapFree(f: string, m: string)
  {
    Unbordered(f) && Unbordered(m) && NoClash(f, m) && NoClash(m, f)
  }

  lemma OverlapAgrees(s: string, a: string, i: nat, b: string, j: nat)
    requires At(s, a, i) && At(s, b, j) && i <= j < i + |a|
    ensures Agree(a, b, j - i)
  {
    forall x | 0 <= x < |b| && j - i + x < |a| ensures a[j - i + x] == b[x] {
      assert s[i..i + |a|][j - i + x] == s[j + x] == s[j..j + |b|][x];
    }
  }

  lemma AtIfCharacters(s: string, d: string, i: nat)
    requires i + |d| <= |s| && forall x :: 0 <= x < |d| ==> s[i + x] == d[x]
    ensures At(s, d, i)
  {
  }

  /** Sharing no character and having no border is one way to be overlap free. */
  lemma DisjointAlphabetsOverlapFree(f: string, m: string)
    requires f != "" && m != "" && Unbordered(f) && Unbordered(m)
    requires forall c :: c in f ==> c !in m
    ensures OverlapFree(f, m)
  {
    forall k | 0 <= k < |f| ensures !Agree(f, m, k) { assert f[k + 0] in f && m[0] in m; }
    forall k | 0 <= k < |m| ensures !Agree(m, f, k) { assert m[k + 0] in m && f[0] in f; }
  }

  // ----- the field level

  lemma FirstDelimiter(v: string, d: string, z: string)
    requires d != "" && !Contains(v, d) && Unbordered(d)
    ensures Find(v + d + z, d) == Some(|v|)
  {
    var s := v + d + z;
    assert s[|v|..|v| + |d|] == d;
    assert s == v + (d + z);
    AtPrefix(v, d + z, d);
    forall j | 0 <= j < |v| ensures !At(s, d, j) {
      if |v| < j + |d| && At(s, d, j) { OverlapAgrees(s, d, j, d, |v|); }
    }
    FindIs(s, d, |v|);
  }

  lemma {:induction false} SplitJoin(vs: seq<string>, d: string)
    requires d != "" && Unbordered(d) && vs != []
    requires forall v :: v in vs ==> !Contains(v, d)
    ensures Split(Join(vs, d), d) == vs
  {
    if |vs| > 1 {
      var z := Join(vs[1..], d);
      assert !Contains(vs[0], d);
      FirstDelimiter(vs[0], d, z);
      assert Join(vs, d)[..|vs[0]|] == vs[0];
      assert Join(vs, d)[|vs[0]| + |d|..] == z;
      SplitJoin(vs[1..], d);
    } else {
      assert vs == [vs[0]];
      assert !Contains(vs[0], d);
    }
  }

  /** The bad pair a bordered delimiter always has: its own first part, then nothing. */
  lemma BorderBreaksSplit(d: string, k: nat)
    requires 0 < k < |d| && Agree(d, d, k)
    ensures Split(Join([d[..k], ""], d), d) != [d[..k], ""]
    ensures !Contains(d[..k], d)
  {
    var s := d[..k] + d;
    assert Join([d[..k], ""], d) == s by { assert [d[..k], ""][1..] == [""]; }
    forall x | 0 <= x < |d| ensures s[0 + x] == d[x] { if x >= k { assert d[k + (x - k)] == d[x - k]; } }
    AtIfCharacters(s, d, 0);
    FindIs(s, d, 0);
  }

  /** Splitting undoes joining for every list of delimiter-free values exactly when the
      delimiter has no border. */
  lemma SplitUndoesJoinIffUnbordered(d: string)
    requires d != ""
    ensures (forall vs: seq<string> ::
               vs != [] && (forall v :: v in vs ==> !Contains(v, d)) ==> Split(Join(vs, d), d) == vs)
       <==> Unbordered(d)
  {
    if Unbordered(d) {
      forall vs: seq<string> | vs != [] && (forall v :: v in vs ==> !Contains(v, d))
        ensures Split(Join(vs, d), d) == vs
      {
        SplitJoin(vs, d);
      }
    } else {
      var k :| 0 < k < |d| && Agree(d, d, k);
      var vs := [d[..k], ""];
      BorderBreaksSplit(d, k);
      assert forall v :: v in vs ==> !Contains(v, d);
      assert Split(Join(vs, d), d) != vs;
    }
  }
}
