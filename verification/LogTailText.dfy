/** The text of a log that is no secret stays where it is. */
module LogTailText {
  import opened Prelude
  import opened Utf8
  import opened LogTail

  /** Texts with others between them. */
  function Woven(kept: seq<Bytes>, cut: seq<Bytes>): Bytes
    requires |kept| == |cut| + 1
    decreases |cut|
  {
    if cut == [] then kept[0] else kept[0] + cut[0] + Woven(kept[1..], cut[1..])
  }

  function Times(u: Bytes, n: nat): (r: seq<Bytes>)
    ensures |r| == n && forall i :: 0 <= i < n ==> r[i] == u
  {
    seq(n, _ => u)
  }

  lemma {:induction false} GluedIsWoven(pieces: seq<Bytes>, u: Bytes)
    requires pieces != []
    ensures Woven(pieces, Times(u, |pieces| - 1)) == Glued(pieces, u)
    decreases |pieces|
  {
    if |pieces| > 1 {
      GluedIsWoven(pieces[1..], u);
      assert Times(u, |pieces| - 1)[1..] == Times(u, |pieces| - 2);
    }
  }

  lemma {:induction false} GluedApart(p: seq<Bytes>, q: seq<Bytes>, u: Bytes)
    requires p != [] && q != []
    ensures Glued(p + q, u) == Glued(p, u) + u + Glued(q, u)
    decreases |p|
  {
    assert (p + q)[0] == p[0];
    if |p| == 1 {
      assert (p + q)[1..] == q;
    } else {
      GluedApart(p[1..], q, u);
      assert (p + q)[1..] == p[1..] + q;
      assert p[0] + u + (Glued(p[1..], u) + u + Glued(q, u)) == (p[0] + u + Glued(p[1..], u)) + u + Glued(q, u);
    }
  }

  lemma {:induction false} WovenApart(p: seq<Bytes>, c: seq<Bytes>, x: Bytes, q: seq<Bytes>, d: seq<Bytes>)
    requires |p| == |c| + 1 && |q| == |d| + 1
    ensures Woven(p + q, c + [x] + d) == Woven(p, c) + x + Woven(q, d)
    decreases |p|
  {
    var (kept, cut) := (p + q, c + [x] + d);
    assert kept[0] == p[0];
    if |p| == 1 {
      assert kept[1..] == q && cut[0] == x && cut[1..] == d;
    } else {
      WovenApart(p[1..], c[1..], x, q, d);
      assert kept[1..] == p[1..] + q && cut[0] == c[0] && cut[1..] == c[1..] + [x] + d;
      assert p[0] + c[0] + (Woven(p[1..], c[1..]) + x + Woven(q, d)) ==
             (p[0] + c[0] + Woven(p[1..], c[1..])) + x + Woven(q, d);
    }
  }

  // ---- A marker splits the work --------------------------------------------------------

  lemma FoundIs(t: Bytes, u: Bytes, n: nat)
    requires OccursAt(t, u, n) && forall j: nat :: j < n ==> !OccursAt(t, u, j)
    ensures Find(t, u) == Some(n)
  {
  }

  lemma NotFound(t: Bytes, u: Bytes)
    requires forall j: nat :: !OccursAt(t, u, j)
    ensures Find(t, u) == None
  {
  }

  lemma InFront(a: Bytes, b: Bytes, u: Bytes, i: nat)
    requires OccursAt(a, u, i)
    ensures OccursAt(a + b, u, i)
  {
    assert (a + b)[i..i + |u|] == a[i..i + |u|];
  }

  lemma Behind(a: Bytes, b: Bytes, u: Bytes, i: nat)
    requires OccursAt(b, u, i)
    ensures OccursAt(a + b, u, |a| + i)
  {
    assert (a + b)[|a| + i..|a| + i + |u|] == b[i..i + |u|];
  }

  /** A secret that does not clash is replaced before and after a marker as if there were nothing else. */
  lemma {:induction false} AroundReplaced(a: Bytes, b: Bytes, u: Bytes)
    requires u != [] && !Clashes(u)
    ensures ReplaceAll(a + MARKER + b, u) == ReplaceAll(a, u) + MARKER + ReplaceAll(b, u)
    decreases |a|
  {
    hide Clashes, MARKER, Find, OccursAt, ReplaceAll;
    var t := a + MARKER + b;
    forall i: nat | OccursAt(t, u, i)
      ensures OccursAt(a, u, i) || (i >= |a| + |MARKER| && OccursAt(b, u, i - |a| - |MARKER|))
    {
      AroundMarker(a, b, u, i);
    }
    var found := Find(a, u);
    if found.Some? {
      var n := found.value;
      assert t == a + (MARKER + b);
      Fits(a, u, n);
      InFront(a, MARKER + b, u, n);
      FoundIs(t, u, n);
      ReplaceFound(a, u, n);
      ReplaceFound(t, u, n);
      var rest := a[n + |u|..];
      AroundReplaced(rest, b, u);
      assert t[..n] == a[..n] && t[n + |u|..] == rest + MARKER + b;
      assert a[..n] + MARKER + (ReplaceAll(rest, u) + MARKER + ReplaceAll(b, u)) ==
             (a[..n] + MARKER + ReplaceAll(rest, u)) + MARKER + ReplaceAll(b, u);
    } else {
      ReplaceNone(a, u);
      AfterMarker(a, b, u);
    }
  }

  lemma AfterMarker(a: Bytes, b: Bytes, u: Bytes)
    requires u != [] && Find(a, u).None?
    requires forall i: nat :: OccursAt(a + MARKER + b, u, i) ==>
               OccursAt(a, u, i) || (i >= |a| + |MARKER| && OccursAt(b, u, i - |a| - |MARKER|))
    ensures ReplaceAll(a + MARKER + b, u) == a + MARKER + ReplaceAll(b, u)
  {
    hide MARKER, Find, OccursAt, ReplaceAll;
    var t := a + MARKER + b;
    var n := |a| + |MARKER|;
    var found := Find(b, u);
    if found.Some? {
      var m := found.value;
      Behind(a + MARKER, b, u, m);
      Fits(b, u, m);
      FoundIs(t, u, n + m);
      ReplaceFound(b, u, m);
      ReplaceFound(t, u, n + m);
      assert t[..n + m] == a + MARKER + b[..m] && t[n + m + |u|..] == b[m + |u|..];
      assert a + MARKER + (b[..m] + MARKER + ReplaceAll(b[m + |u|..], u)) ==
             (a + MARKER + b[..m]) + MARKER + ReplaceAll(b[m + |u|..], u);
    } else {
      NotFound(t, u);
      ReplaceNone(t, u);
      ReplaceNone(b, u);
    }
  }

  // ---- What stays ------------------------------------------------------------------------

  /** One more secret only cuts the pieces that are left. */
  lemma {:induction false} Refined(kept: seq<Bytes>, cut: seq<Bytes>, u: Bytes)
    returns (kept': seq<Bytes>, cut': seq<Bytes>)
    requires |kept| == |cut| + 1 && u != [] && !Clashes(u)
    ensures |kept'| == |cut'| + 1 && Woven(kept', cut') == Woven(kept, cut)
    ensures ReplaceAll(Glued(kept, MARKER), u) == Glued(kept', MARKER)
    ensures forall c :: c in cut' ==> c == u || c in cut
    decreases |cut|
  {
    hide Clashes, MARKER, ReplaceAll, Cut;
    var pieces := ReplacedPieces(kept[0], u);
    CutJoins(kept[0], u, pieces);
    CutNotEmpty(kept[0], u, pieces);
    GluedIsWoven(pieces, u);
    var between := Times(u, |pieces| - 1);
    if cut == [] {
      kept', cut' := pieces, between;
    } else {
      var q, d := Refined(kept[1..], cut[1..], u);
      kept', cut' := pieces + q, between + [cut[0]] + d;
      AroundReplaced(kept[0], Glued(kept[1..], MARKER), u);
      GluedApart(pieces, q, MARKER);
      WovenApart(pieces, between, cut[0], q, d);
      forall c | c in cut' ensures c == u || c in cut {
        if c in d && c != u {
          assert c in cut[1..];
        }
      }
    }
  }

  lemma {:induction false} RefinedByAll(kept: seq<Bytes>, cut: seq<Bytes>, secrets: seq<Bytes>)
    returns (kept': seq<Bytes>, cut': seq<Bytes>)
    requires |kept| == |cut| + 1 && NonEmpty(secrets) && forall u :: u in secrets ==> !Clashes(u)
    ensures |kept'| == |cut'| + 1 && Woven(kept', cut') == Woven(kept, cut)
    ensures Redact(Glued(kept, MARKER), secrets) == Glued(kept', MARKER)
    ensures forall c :: c in cut' ==> c in secrets || c in cut
    decreases |secrets|
  {
    hide Clashes, MARKER, ReplaceAll, Glued, Woven;
    if secrets == [] {
      kept', cut' := kept, cut;
    } else {
      var k, d := Refined(kept, cut, secrets[0]);
      kept', cut' := RefinedByAll(k, d, secrets[1..]);
      forall c | c in cut' ensures c in secrets || c in cut {
        if c in secrets[1..] {
          assert c in secrets;
        }
      }
    }
  }

  lemma FirstCut(t: Bytes, u: Bytes) returns (kept: seq<Bytes>, cut: seq<Bytes>)
    requires u != []
    ensures |kept| == |cut| + 1 && t == Woven(kept, cut) && ReplaceAll(t, u) == Glued(kept, MARKER)
    ensures forall c :: c in cut ==> c == u
  {
    hide MARKER, ReplaceAll, Cut, Glued, Woven;
    kept := ReplacedPieces(t, u);
    CutJoins(t, u, kept);
    CutNotEmpty(t, u, kept);
    GluedIsWoven(kept, u);
    cut := Times(u, |kept| - 1);
  }

  /** If no secret after the first clashes with the marker, a redacted text is the text with a marker in place of
      some secrets: all that is not one of them stays, in its order, and nothing else is added. */
  lemma TextSurvives(t: Bytes, secrets: seq<Bytes>) returns (kept: seq<Bytes>, cut: seq<Bytes>)
    requires NonEmpty(secrets) && forall i :: 1 <= i < |secrets| ==> !Clashes(secrets[i])
    ensures |kept| == |cut| + 1 && t == Woven(kept, cut) && Redact(t, secrets) == Glued(kept, MARKER)
    ensures forall c :: c in cut ==> c in secrets
  {
    hide Clashes, MARKER, ReplaceAll;
    if secrets == [] {
      kept, cut := [t], [];
    } else {
      var k, d := FirstCut(t, secrets[0]);
      kept, cut := RefinedByAll(k, d, secrets[1..]);
      forall c | c in cut ensures c in secrets {
        if c in secrets[1..] {
          assert c in secrets;
        }
      }
    }
  }

  function Lengths(kept: seq<Bytes>): nat {
    if kept == [] then 0 else |kept[0]| + Lengths(kept[1..])
  }

  lemma {:induction false} WovenIsLonger(kept: seq<Bytes>, cut: seq<Bytes>)
    requires |kept| == |cut| + 1
    ensures |Woven(kept, cut)| >= Lengths(kept)
    decreases |cut|
  {
    if cut == [] {
      assert Lengths(kept[1..]) == 0;
    } else {
      WovenIsLonger(kept[1..], cut[1..]);
    }
  }

  lemma {:induction false} GluedLength(kept: seq<Bytes>, u: Bytes)
    requires kept != []
    ensures |Glued(kept, u)| == Lengths(kept) + (|kept| - 1) * |u|
  {
    if |kept| == 1 {
      assert Lengths(kept[1..]) == 0;
    } else {
      GluedLength(kept[1..], u);
      assert (|kept| - 1) * |u| == (|kept| - 2) * |u| + |u|;
    }
  }

  /** A later secret that clashes may tear a marker: after the text "ab", the secret "]" is found in the marker
      that stands for it. */
  lemma MarkerIsTorn(kept: seq<Bytes>, cut: seq<Bytes>)
    requires |kept| == |cut| + 1 && [97, 98] == Woven(kept, cut)
    ensures Redact([97, 98], [[97, 98], [93]]) != Glued(kept, MARKER)
  {
    hide Woven, Glued, Redact, MARKER, Lengths;
    WovenIsLonger(kept, cut);
    GluedLength(kept, MARKER);
    TornText();
    MarkerLength();
  }

  lemma MarkerLength()
    ensures |MARKER| == 10 && |MARKER| - 1 == 9
  {
  }

  lemma TornText()
    ensures |Redact([97, 98], [[97, 98], [93]])| == 19
  {
    hide Redact, ReplaceAll, MARKER, Find;
    MarkerLength();
    var (s, u) := ([97, 98], [93]);
    OwnReplacement(s);
    TwoInTurn(s, s, u);
    LastByte();
    ReplaceFound(MARKER, u, 9);
    NotFound([], u);
    ReplaceNone([], u);
    assert MARKER[10..] == [];
  }

  lemma ByteAt(t: Bytes, b: Byte, j: nat)
    requires OccursAt(t, [b], j)
    ensures j < |t| && t[j] == b
  {
    assert t[j..j + 1][0] == b;
  }

  lemma LastByte()
    ensures Find(MARKER, [93]) == Some(9)
  {
    hide Find;
    forall j: nat | j < 9 ensures !OccursAt(MARKER, [93], j) {
      if OccursAt(MARKER, [93], j) {
        ByteAt(MARKER, 93, j);
      }
    }
    assert MARKER[9..10] == [93];
    FoundIs(MARKER, [93], 9);
  }

  lemma TwoInTurn(t: Bytes, s: Bytes, u: Bytes)
    requires s != [] && u != []
    ensures Redact(t, [s, u]) == ReplaceAll(ReplaceAll(t, s), u)
  {
    hide ReplaceAll;
    assert [s, u][1..] == [u] && [u][1..] == [];
    assert Redact(ReplaceAll(t, s), [u]) == Redact(ReplaceAll(ReplaceAll(t, s), u), []);
  }

  /** So what is shown of a window is the end of the window itself, but for the secrets in it. */
  lemma WindowSurvives(window: Bytes, secrets: seq<Bytes>, limit: nat)
    returns (kept: seq<Bytes>, cut: seq<Bytes>)
    requires forall i :: 1 <= i < |Order(secrets)| ==> !Clashes(Order(secrets)[i])
    ensures |kept| == |cut| + 1 && window[FragmentLength(window, secrets)..] == Woven(kept, cut)
    ensures Shown(window, secrets, limit) == Last(Glued(kept, MARKER), limit)
    ensures forall c :: c in cut ==> c in secrets && c != []
  {
    hide Clashes, MARKER, Redact, FragmentLength, Woven, Glued, Last;
    kept, cut := TextSurvives(window[FragmentLength(window, secrets)..], Order(secrets));
  }
}
