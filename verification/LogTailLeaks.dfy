/** The secrets the log tail does keep out are exactly those that do not clash
    with the marker: for every other one there is a log that shows it. */
module LogTailLeaks {
  import opened Prelude
  import opened Utf8
  import opened LogTail

  // ---- The second secret -----------------------------------------------------------------

  /** The byte 255 throughout, and 254 at the end. It does not overlap itself, and of all secrets of its length
      with a smaller byte in them it comes last. */
  function Top(n: nat): (r: Bytes)
    requires n > 0
    ensures |r| == n && r[n - 1] == 254 && forall i :: 0 <= i < n - 1 ==> r[i] == 255
  {
    if n == 1 then [254] else [255] + Top(n - 1)
  }

  function Run(q: Byte, n: nat): (r: Bytes)
    ensures |r| == n && forall i :: 0 <= i < n ==> r[i] == q
  {
    if n == 0 then [] else [q] + Run(q, n - 1)
  }

  lemma {:induction false} BelowTop(u: Bytes, i: nat)
    requires i < |u| && u[i] < 254
    ensures Less(u, Top(|u|))
  {
    if i > 0 && u[0] == 255 {
      BelowTop(u[1..], i - 1);
      assert Top(|u|)[1..] == Top(|u| - 1);
    }
  }

  // ---- The log ---------------------------------------------------------------------------------

  /** What stands before and after a marker at offset -d in an occurrence of u. */
  function Head(u: Bytes, d: int): Bytes
    requires -|u| < d
  {
    if d < 0 then u[..-d] else []
  }

  function Tail(u: Bytes, d: int): Bytes
    requires d < |MARKER|
  {
    if d + |u| > |MARKER| then u[|MARKER| - d..] else []
  }

  /** A byte that neither ends u nor occurs in the marker or in the second secret. */
  function Filler(u: Bytes): (q: Byte)
    requires u != []
    ensures 200 <= q <= 201 && q != u[|u| - 1]
  {
    if u[|u| - 1] == 200 then 201 else 200
  }

  /** Filling, so that nothing is trimmed; then the second secret between head and tail. */
  function Log(u: Bytes, d: int): Bytes
    requires u != [] && -|u| < d < |MARKER|
  {
    Run(Filler(u), |u|) + Head(u, d) + Top(|u|) + Tail(u, d)
  }

  /** What the proofs need of the parts of the log: the filling p, the head a, the second secret s, the tail b. */
  predicate Built(u: Bytes, q: Byte, p: Bytes, a: Bytes, s: Bytes, b: Bytes) {
    && |p| == |s| == |u| && |a| + |b| < |u| && u[|a|] < 200 <= q < 254
    && (forall i :: 0 <= i < |p| ==> p[i] == q)
    && (forall i :: 0 <= i < |a| ==> a[i] == u[i])
    && s[|s| - 1] == 254 && (forall i :: 0 <= i < |s| - 1 ==> s[i] == 255)
  }

  lemma Parts(u: Bytes, d: int)
    requires u != [] && -|u| < d < |MARKER| && Agrees(u, d)
    ensures Built(u, Filler(u), Run(Filler(u), |u|), Head(u, d), Top(|u|), Tail(u, d))
  {
    hide Agrees, MARKER, Run, Top;
    MarkerBytes(u, d, |Head(u, d)|);
  }

  lemma MarkerBytes(u: Bytes, d: int, k: nat)
    requires Agrees(u, d)
    ensures |MARKER| == 10
    ensures k < |u| && 0 <= d + k < |MARKER| ==> u[k] < 200
  {
    if k < |u| && 0 <= d + k < |MARKER| {
      assert u[k] == MARKER[d + k];
    }
  }

  /** A byte repeated with a period that begins with the filler is the filler. */
  lemma {:induction false} Periodic(u: Bytes, q: Byte, w: nat, m: nat)
    requires 1 <= w && m < |u| && forall i :: 0 <= i < w && i <= m ==> u[i] == q
    requires forall i :: w <= i <= m ==> u[i] == u[i - w]
    ensures u[m] == q
  {
    if m >= w {
      Periodic(u, q, w, m - w);
    }
  }

  lemma Differs(t: Bytes, u: Bytes, j: nat, k: nat)
    requires k < |u| && (j + |u| <= |t| ==> t[j + k] != u[k])
    ensures !OccursAt(t, u, j)
  {
    if j + |u| <= |t| {
      assert t[j..j + |u|][k] == t[j + k];
    }
  }

  /** The log does not contain u: the byte of u that would stand in a marker falls on the filling or on the
      second secret. */
  lemma NotInLog(u: Bytes, q: Byte, p: Bytes, a: Bytes, s: Bytes, b: Bytes, j: nat)
    requires Built(u, q, p, a, s, b)
    ensures !OccursAt(p + a + s + b, u, j)
  {
    var t := p + a + s + b;
    if j + |u| <= |t| {
      if j + |a| < |p| {
        assert t[j + |a|] == p[j + |a|];
        Differs(t, u, j, |a|);
      } else if j >= |p| {
        assert t[j + |a|] == s[j - |p|];
        Differs(t, u, j, |a|);
      } else if OccursAt(t, u, j) {
        FillingContinues(u, q, p, a, s, b, j);
      }
    }
  }

  lemma FillingContinues(u: Bytes, q: Byte, p: Bytes, a: Bytes, s: Bytes, b: Bytes, j: nat)
    requires |a| < |u| && |p| == |s| == |u| && forall i :: 0 <= i < |a| ==> a[i] == u[i]
    requires forall i :: 0 <= i < |p| ==> p[i] == q
    requires j < |p| <= j + |a| && OccursAt(p + a + s + b, u, j)
    ensures u[|a|] == q
  {
    var t := p + a + s + b;
    var w := |p| - j;
    forall i | 0 <= i <= |a| ensures u[i] == t[j + i] {
      assert t[j..j + |u|][i] == t[j + i];
    }
    forall i | 0 <= i < w && i <= |a| ensures u[i] == q {
      assert t[j + i] == p[j + i];
    }
    forall i | w <= i <= |a| ensures u[i] == u[i - w] {
      assert t[j + i] == a[i - w];
    }
    Periodic(u, q, w, |a|);
  }

  /** The second secret does not occur before its place. */
  lemma TopNotBefore(u: Bytes, q: Byte, p: Bytes, a: Bytes, s: Bytes, b: Bytes, j: nat)
    requires |u| > 1 && Built(u, q, p, a, s, b) && j < |p| + |a|
    ensures !OccursAt(p + a + s + b, s, j)
  {
    var t := p + a + s + b;
    if j < |p| {
      assert t[j] == p[j];
      Differs(t, s, j, 0);
    } else {
      var k := |s| - 1;
      assert t[j + k] == s[j + k - |p| - |a|];
      Differs(t, s, j, k);
    }
  }

  lemma TopReplaced(u: Bytes, q: Byte, p: Bytes, a: Bytes, s: Bytes, b: Bytes)
    requires |u| > 1 && Built(u, q, p, a, s, b)
    ensures ReplaceAll(p + a + s + b, s) == p + a + MARKER + b
  {
    var t := p + a + s + b;
    var at := |p| + |a|;
    forall j: nat | j < at ensures !OccursAt(t, s, j) {
      TopNotBefore(u, q, p, a, s, b, j);
    }
    FoundAt(p + a, s, b);
  }

  lemma FoundAt(before: Bytes, s: Bytes, after: Bytes)
    requires |after| < |s| && forall j: nat :: j < |before| ==> !OccursAt(before + s + after, s, j)
    ensures ReplaceAll(before + s + after, s) == before + MARKER + after
  {
    var t := before + s + after;
    assert t[|before|..|before| + |s|] == s;
    assert OccursAt(t, s, |before|);
    assert Find(t, s) == Some(|before|);
    assert t[..|before|] == before && t[|before| + |s|..] == after;
    assert Find(after, s) == None;
  }

  lemma CompletedAround(p: Bytes, h: Bytes, m: Bytes, b: Bytes, u: Bytes, d: int)
    requires -|u| < d < |m| && forall k :: 0 <= k < |u| && 0 <= d + k < |m| ==> u[k] == m[d + k]
    requires h == (if d < 0 then u[..-d] else []) && b == if d + |u| > |m| then u[|m| - d..] else []
    ensures OccursAt(p + h + m + b, u, |p| + if d < 0 then 0 else d)
  {
    var r := p + h + m + b;
    var i: nat := |p| + if d < 0 then 0 else d;
    forall k | 0 <= k < |u| ensures r[i + k] == u[k] {
      if 0 <= d + k < |m| {
        assert r[i + k] == m[d + k];
      }
    }
    assert r[i..i + |u|] == u;
  }

  /** The marker completes u. */
  lemma Completed(p: Bytes, u: Bytes, d: int)
    requires -|u| < d < |MARKER| && Agrees(u, d)
    ensures Occurs(p + Head(u, d) + MARKER + Tail(u, d), u)
  {
    hide OccursAt, MARKER;
    CompletedAround(p, Head(u, d), MARKER, Tail(u, d), u, d);
  }

  /** Nothing is trimmed off a text that begins with enough filling. */
  lemma NothingTrimmed(t: Bytes, q: Byte, secrets: seq<Bytes>)
    requires forall i :: 0 <= i < |secrets| ==>
               secrets[i] != [] && secrets[i][|secrets[i]| - 1] != q && |secrets[i]| <= |t| + 1 &&
               forall m :: 0 <= m < |secrets[i]| - 1 ==> t[m] == q
    ensures FragmentLength(t, secrets) == 0
  {
    forall i, m: nat | 0 <= i < |secrets| ensures !Fragment(t, secrets[i], m) {
      var secret := secrets[i];
      if 1 <= m < |secret| {
        assert t[..m][m - 1] == q && secret[|secret| - m..][m - 1] == secret[|secret| - 1];
      }
    }
    LongestIsUnique(t, secrets, FragmentLength(t, secrets), 0);
  }

  // ---- The theorem ----------------------------------------------------------------------------

  lemma TwoSecrets(t: Bytes, u: Bytes, s: Bytes)
    requires u != [] && s != [] && Before(u, s)
    ensures Order([u, s]) == [u, s] && Redact(t, Order([u, s])) == ReplaceAll(ReplaceAll(t, u), s)
  {
    hide ReplaceAll;
    OrderIsUnique(Order([u, s]), [u, s]);
    assert [u, s][1..] == [s] && [s][1..] == [];
    assert Redact(ReplaceAll(t, u), [s]) == Redact(ReplaceAll(ReplaceAll(t, u), s), []);
  }

  lemma WholeTail(t: Bytes, secrets: seq<Bytes>, limit: nat)
    requires FragmentLength(t, secrets) == 0 && |t| <= limit && |Redact(t, Order(secrets))| <= limit
    ensures TailOf(t, limit, secrets) == Redact(t, Order(secrets))
  {
    hide FragmentLength, Redact, Order;
    assert t[0..] == t;
  }

  /** A clashing secret is shown in a log of less than three times its length, beside one other secret. */
  lemma ClashLeaks(u: Bytes) returns (file: Bytes, limit: nat, secrets: seq<Bytes>)
    requires |u| > 1 && Clashes(u)
    ensures u in secrets && Occurs(TailOf(file, limit, secrets), u)
    ensures |file| < 3 * |u| && limit == 3 * |u| + |MARKER| && secrets == [u, Top(|u|)]
  {
    hide ReplaceAll, Find, Redact, TailOf, Head, Tail, Agrees, FragmentLength, Occurs, OccursAt, Before, Less;
    var d: int :| -|u| < d < |MARKER| && Agrees(u, d);
    var (q, p, a, s, b) := (Filler(u), Run(Filler(u), |u|), Head(u, d), Top(|u|), Tail(u, d));
    file, limit, secrets := Log(u, d), 3 * |u| + |MARKER|, [u, s];
    Parts(u, d);
    forall j: nat ensures !OccursAt(file, u, j) {
      NotInLog(u, q, p, a, s, b, j);
    }
    NotThere(file, u);
    InOrder(u, |a|);
    TwoSecrets(file, u, s);
    TopReplaced(u, q, p, a, s, b);
    NothingTrimmed(file, q, secrets);
    WholeTail(file, secrets, limit);
    Completed(p, u, d);
  }

  lemma InOrder(u: Bytes, i: nat)
    requires i < |u| && u[i] < 254
    ensures Before(u, Top(|u|))
  {
    BelowTop(u, i);
  }

  lemma NotThere(t: Bytes, u: Bytes)
    requires u != [] && forall j: nat :: !OccursAt(t, u, j)
    ensures ReplaceAll(t, u) == t
  {
    assert Find(t, u) == None;
  }

  lemma AloneInOrder(u: Bytes)
    requires u != []
    ensures Order([u]) == [u] && Redact(u, [u]) == MARKER
  {
    hide ReplaceAll, MARKER;
    OrderIsUnique(Order([u]), [u]);
    OwnReplacement(u);
    assert [u][1..] == [];
  }

  lemma NothingShort(u: Bytes)
    requires |u| == 1
    ensures FragmentLength(u, [u]) == 0
  {
    hide FragmentLength;
    LongestIsUnique(u, [u], FragmentLength(u, [u]), 0);
  }

  /** A clashing secret of one byte is shown by its own replacement. */
  lemma ShortClashLeaks(u: Bytes)
    requires |u| == 1 && Clashes(u)
    ensures Occurs(TailOf(u, |MARKER|, [u]), u)
  {
    hide ReplaceAll, TailOf, FragmentLength, Order, Redact;
    var d: int :| -|u| < d < |MARKER| && Agrees(u, d);
    assert u[0] == MARKER[d] && u == [u[0]];
    AloneInOrder(u);
    NothingShort(u);
    WholeTail(u, [u], |MARKER|);
    assert MARKER[d..d + 1] == u;
    assert OccursAt(MARKER, u, d);
  }

  /** A secret is kept out of the tail of every log, at every limit and beside whatever other secrets, exactly
      if it does not clash with the marker. */
  lemma KeptOutIff(u: Bytes)
    requires u != []
    ensures (forall file: Bytes, limit: nat, secrets: seq<Bytes> :: limit > 0 && u in secrets ==>
               !Occurs(TailOf(file, limit, secrets), u))
            <==> !Clashes(u)
  {
    hide Occurs, TailOf, Clashes;
    if Clashes(u) {
      if |u| == 1 {
        ShortClashLeaks(u);
        assert u in [u];
      } else {
        var file, limit, secrets := ClashLeaks(u);
      }
    } else {
      forall file: Bytes, limit: nat, secrets: seq<Bytes> | limit > 0 && u in secrets
        ensures !Occurs(TailOf(file, limit, secrets), u)
      {
        TailIsClean(file, limit, secrets, u);
      }
    }
  }

  lemma TailIsClean(file: Bytes, limit: nat, secrets: seq<Bytes>, u: Bytes)
    requires u in secrets && u != [] && !Clashes(u)
    ensures !Occurs(TailOf(file, limit, secrets), u)
  {
    hide Occurs, Clashes, Shown;
    ShownIsClean(Last(file, limit + Overlap(secrets)), secrets, limit, u);
  }
}
