/** The bounded, redacted tail of a log file. */
module LogTail {
  import opened Prelude
  import opened Utf8

  /** [REDACTED] */
  const MARKER: Bytes := [91, 82, 69, 68, 65, 67, 84, 69, 68, 93]

  const OPENING: Byte := 91
  const CLOSING: Byte := 93

  predicate OccursAt(t: Bytes, u: Bytes, i: nat) {
    i + |u| <= |t| && t[i..i + |u|] == u
  }

  ghost predicate Occurs(t: Bytes, u: Bytes) {
    exists i: nat :: OccursAt(t, u, i)
  }

  // ---- Replacing one secret ---------------------------------------------------------

  /** The first occurrence of u at or after i. */
  function Find(t: Bytes, u: Bytes, i: nat := 0): (r: Option<nat>)
    ensures r.Some? ==> i <= r.value && OccursAt(t, u, r.value) && forall j :: i <= j < r.value ==> !OccursAt(t, u, j)
    ensures r.None? ==> forall j :: i <= j ==> !OccursAt(t, u, j)
    decreases |t| - i
  {
    if i + |u| > |t| then None
    else if OccursAt(t, u, i) then Some(i)
    else Find(t, u, i + 1)
  }

  /** strings.ReplaceAll with the marker: matches are taken from the left and do not overlap. */
  function ReplaceAll(t: Bytes, u: Bytes): Bytes
    requires u != []
    decreases |t|
  {
    match Find(t, u)
    case None => t
    case Some(i) => t[..i] + MARKER + ReplaceAll(t[i + |u|..], u)
  }

  /** The pieces, with u between them. */
  function Glued(pieces: seq<Bytes>, u: Bytes): Bytes {
    if pieces == [] then []
    else if |pieces| == 1 then pieces[0]
    else pieces[0] + u + Glued(pieces[1..], u)
  }

  /** The text cut at its leftmost occurrences of u that do not overlap: nowhere in a piece does one begin. */
  ghost predicate Cut(t: Bytes, u: Bytes, pieces: seq<Bytes>)
    decreases |pieces|
  {
    && pieces != [] && (forall i: nat :: i < |pieces[0]| ==> !OccursAt(t, u, i))
    && if |pieces| == 1 then t == pieces[0]
       else
         && OccursAt(t, u, |pieces[0]|) && t[..|pieces[0]|] == pieces[0]
         && Cut(t[|pieces[0]| + |u|..], u, pieces[1..])
  }

  /** Cutting loses nothing. */
  lemma {:induction false} CutJoins(t: Bytes, u: Bytes, pieces: seq<Bytes>)
    requires Cut(t, u, pieces)
    ensures Glued(pieces, u) == t
    decreases |pieces|
  {
    if |pieces| > 1 {
      var n := |pieces[0]|;
      CutJoins(t[n + |u|..], u, pieces[1..]);
      assert t == t[..n] + t[n..n + |u|] + t[n + |u|..];
    }
  }

  lemma {:induction false} CutIsUnique(t: Bytes, u: Bytes, p: seq<Bytes>, q: seq<Bytes>)
    requires u != [] && Cut(t, u, p) && Cut(t, u, q)
    ensures p == q
    decreases |p|
  {
    if |p| > 1 && |q| > 1 {
      assert |p[0]| == |q[0]|;
      CutIsUnique(t[|p[0]| + |u|..], u, p[1..], q[1..]);
      assert p == [p[0]] + p[1..] && q == [q[0]] + q[1..];
    } else if |p| == |q| {
      assert p == [t] && q == [t];
    }
  }

  lemma GluedMore(first: Bytes, rest: seq<Bytes>, u: Bytes)
    requires rest != []
    ensures Glued([first] + rest, u) == first + u + Glued(rest, u)
  {
    assert ([first] + rest)[1..] == rest;
  }

  lemma CutMore(t: Bytes, u: Bytes, n: nat, rest: seq<Bytes>)
    requires u != [] && Find(t, u) == Some(n) && Cut(t[n + |u|..], u, rest)
    ensures rest != [] && Cut(t, u, [t[..n]] + rest)
  {
    hide OccursAt, Find;
    Fits(t, u, n);
    CutNotEmpty(t[n + |u|..], u, rest);
    var pieces := [t[..n]] + rest;
    assert pieces[0] == t[..n] && pieces[1..] == rest;
  }

  lemma CutNotEmpty(t: Bytes, u: Bytes, pieces: seq<Bytes>)
    requires Cut(t, u, pieces)
    ensures pieces != []
  {
    hide OccursAt;
  }

  lemma Fits(a: Bytes, u: Bytes, n: nat)
    requires OccursAt(a, u, n)
    ensures n + |u| <= |a|
  {
  }

  lemma ReplaceFound(t: Bytes, u: Bytes, n: nat)
    requires u != [] && Find(t, u) == Some(n)
    ensures n + |u| <= |t| && ReplaceAll(t, u) == t[..n] + MARKER + ReplaceAll(t[n + |u|..], u)
  {
    hide MARKER;
  }

  lemma ReplaceNone(t: Bytes, u: Bytes)
    requires u != [] && Find(t, u) == None
    ensures ReplaceAll(t, u) == t && Cut(t, u, [t]) && Glued([t], MARKER) == t
  {
    hide MARKER;
  }

  lemma OwnReplacement(u: Bytes)
    requires u != []
    ensures ReplaceAll(u, u) == MARKER
  {
    assert u[0..|u|] == u;
    assert OccursAt(u, u, 0);
    assert Find(u, u) == Some(0);
    assert u[|u|..] == [] && u[..0] == [];
    assert Find([], u) == None;
  }

  /** What is replaced is exactly what the text is cut at: every piece stays, in its place, with a marker between. */
  lemma {:induction false} ReplacedPieces(t: Bytes, u: Bytes) returns (pieces: seq<Bytes>)
    requires u != []
    ensures Cut(t, u, pieces) && ReplaceAll(t, u) == Glued(pieces, MARKER)
    decreases |t|
  {
    hide MARKER, Cut, Glued, ReplaceAll, Find;
    var found := Find(t, u);
    if found.None? {
      ReplaceNone(t, u);
      pieces := [t];
    } else {
      var n := found.value;
      ReplaceFound(t, u, n);
      var rest := ReplacedPieces(t[n + |u|..], u);
      CutMore(t, u, n, rest);
      GluedMore(t[..n], rest, MARKER);
      pieces := [t[..n]] + rest;
    }
  }

  /** With its first byte at offset d from the start of a marker, u agrees with the marker wherever they overlap. */
  predicate Agrees(u: Bytes, d: int) {
    forall k :: 0 <= k < |u| && 0 <= d + k < |MARKER| ==> u[k] == MARKER[d + k]
  }

  /** Some text around a marker can complete it to an occurrence of u that overlaps the marker. */
  ghost predicate Clashes(u: Bytes) {
    exists d: int :: -|u| < d < |MARKER| && Agrees(u, d)
  }

  lemma AroundMarker(a: Bytes, b: Bytes, u: Bytes, i: nat)
    requires OccursAt(a + MARKER + b, u, i) && u != [] && !Clashes(u)
    ensures OccursAt(a, u, i) || (i >= |a| + |MARKER| && OccursAt(b, u, i - |a| - |MARKER|))
  {
    var t := a + MARKER + b;
    assert forall k :: 0 <= k < |u| ==> t[i + k] == u[k] by {
      assert forall k :: 0 <= k < |u| ==> t[i..i + |u|][k] == u[k];
    }
    if i + |u| <= |a| {
      assert a[i..i + |u|] == u;
    } else if i >= |a| + |MARKER| {
      assert b[i - |a| - |MARKER|..i - |a| - |MARKER| + |u|] == u;
    } else {
      var d := i - |a|;
      assert Agrees(u, d) by {
        forall k | 0 <= k < |u| && 0 <= d + k < |MARKER| ensures u[k] == MARKER[d + k] {
          assert t[i + k] == MARKER[d + k];
        }
      }
    }
  }

  lemma InPart(t: Bytes, u: Bytes, from: nat, to: nat, i: nat)
    requires from <= to <= |t| && OccursAt(t[from..to], u, i)
    ensures OccursAt(t, u, from + i)
  {
    forall k | 0 <= k < |u| ensures u[k] == t[from + i + k] {
      assert t[from..to][i..i + |u|][k] == t[from..to][i + k];
    }
    assert t[from + i..from + i + |u|] == u;
  }

  /** Replacing one secret makes no other one appear. */
  lemma {:induction false} NothingAppears(t: Bytes, s: Bytes, u: Bytes)
    requires s != [] && u != [] && !Clashes(u) && Occurs(ReplaceAll(t, s), u)
    ensures Occurs(t, u)
    decreases |t|
  {
    hide Clashes;
    var found := Find(t, s);
    if found.Some? {
      var at := found.value;
      var rest := t[at + |s|..];
      var i: nat :| OccursAt(ReplaceAll(t, s), u, i);
      AroundMarker(t[..at], ReplaceAll(rest, s), u, i);
      if OccursAt(t[..at], u, i) {
        assert t[..at] == t[0..at];
        InPart(t, u, 0, at, i);
      } else {
        assert Occurs(ReplaceAll(rest, s), u);
        NothingAppears(rest, s, u);
        var j: nat :| OccursAt(rest, u, j);
        assert rest == t[at + |s|..|t|];
        InPart(t, u, at + |s|, |t|, j);
      }
    }
  }

  /** A replaced secret is gone. */
  lemma {:induction false} Replaced(t: Bytes, u: Bytes)
    requires u != [] && !Clashes(u)
    ensures !Occurs(ReplaceAll(t, u), u)
    decreases |t|
  {
    hide Clashes;
    var found := Find(t, u);
    if found.Some? && Occurs(ReplaceAll(t, u), u) {
      var at := found.value;
      var rest := t[at + |u|..];
      Replaced(rest, u);
      var i: nat :| OccursAt(ReplaceAll(t, u), u, i);
      AroundMarker(t[..at], ReplaceAll(rest, u), u, i);
      if OccursAt(t[..at], u, i) {
        assert t[..at] == t[0..at];
        InPart(t, u, 0, at, i);
        assert false;
      } else {
        assert false;
      }
    }
  }

  // ---- Replacing all of them -----------------------------------------------------------

  predicate NonEmpty(secrets: seq<Bytes>) {
    forall i :: 0 <= i < |secrets| ==> secrets[i] != []
  }

  /** redactText, for secrets in the order given. */
  function Redact(t: Bytes, secrets: seq<Bytes>): Bytes
    requires NonEmpty(secrets)
    decreases |secrets|
  {
    if secrets == [] then t
    else Redact(ReplaceAll(t, secrets[0]), secrets[1..])
  }

  /** A text redacted: cut at each of the secrets in turn, and joined again with markers. */
  ghost predicate Redaction(t: Bytes, secrets: seq<Bytes>, r: Bytes)
    decreases |secrets|
  {
    if secrets == [] then r == t
    else exists pieces :: Cut(t, secrets[0], pieces) && Redaction(Glued(pieces, MARKER), secrets[1..], r)
  }

  lemma {:induction false} RedactIsRedaction(t: Bytes, secrets: seq<Bytes>)
    requires NonEmpty(secrets)
    ensures Redaction(t, secrets, Redact(t, secrets))
    decreases |secrets|
  {
    hide Cut, Glued, ReplaceAll, MARKER;
    if secrets != [] {
      var pieces := ReplacedPieces(t, secrets[0]);
      RedactIsRedaction(ReplaceAll(t, secrets[0]), secrets[1..]);
    }
  }

  /** and there is only one. */
  lemma {:induction false} RedactionIsUnique(t: Bytes, secrets: seq<Bytes>, r: Bytes)
    requires NonEmpty(secrets) && Redaction(t, secrets, r)
    ensures r == Redact(t, secrets)
    decreases |secrets|
  {
    hide Cut, Glued, ReplaceAll, MARKER;
    if secrets != [] {
      var pieces :| Cut(t, secrets[0], pieces) && Redaction(Glued(pieces, MARKER), secrets[1..], r);
      var own := ReplacedPieces(t, secrets[0]);
      CutIsUnique(t, secrets[0], pieces, own);
      RedactionIsUnique(ReplaceAll(t, secrets[0]), secrets[1..], r);
    }
  }

  lemma {:induction false} StaysGone(t: Bytes, secrets: seq<Bytes>, u: Bytes)
    requires NonEmpty(secrets) && u != [] && !Clashes(u) && !Occurs(t, u)
    ensures !Occurs(Redact(t, secrets), u)
    decreases |secrets|
  {
    if secrets != [] {
      if Occurs(ReplaceAll(t, secrets[0]), u) {
        NothingAppears(t, secrets[0], u);
      }
      StaysGone(ReplaceAll(t, secrets[0]), secrets[1..], u);
    }
  }

  /** Whatever the log, the other secrets and their order: no secret is left that does not clash with the marker. */
  lemma {:induction false} SecretIsGone(t: Bytes, secrets: seq<Bytes>, u: Bytes)
    requires NonEmpty(secrets) && u in secrets && !Clashes(u)
    ensures !Occurs(Redact(t, secrets), u)
    decreases |secrets|
  {
    hide Clashes, Occurs;
    var next := ReplaceAll(t, secrets[0]);
    if secrets[0] == u {
      Replaced(t, u);
      StaysGone(next, secrets[1..], u);
    } else {
      SecretIsGone(next, secrets[1..], u);
    }
  }

  /** A log without secrets is left alone. */
  lemma {:induction false} CleanTextStays(t: Bytes, secrets: seq<Bytes>)
    requires NonEmpty(secrets) && forall i :: 0 <= i < |secrets| ==> !Occurs(t, secrets[i])
    ensures Redact(t, secrets) == t
    decreases |secrets|
  {
    if secrets != [] {
      assert Find(t, secrets[0]) == None;
      CleanTextStays(t, secrets[1..]);
    }
  }

  /** A secret without brackets that is no part of the word between them does not clash. */
  lemma PlainSecret(u: Bytes)
    requires u != [] && OPENING !in u && CLOSING !in u && !Occurs(MARKER[1..9], u)
    ensures !Clashes(u)
  {
    forall d: int | -|u| < d < |MARKER| ensures !Agrees(u, d) {
      if d <= 0 {
        assert u[-d] in u && u[-d] != MARKER[0];
      } else if d + |u| >= |MARKER| {
        assert u[|MARKER| - 1 - d] in u && u[|MARKER| - 1 - d] != MARKER[|MARKER| - 1];
      } else if Agrees(u, d) {
        AgreesInside(u, d);
      }
    }
  }

  lemma AgreesInside(u: Bytes, d: nat)
    requires 1 <= d && d + |u| < |MARKER| && Agrees(u, d)
    ensures Occurs(MARKER[1..9], u)
  {
    InsideOf(MARKER, u, d);
  }

  lemma InsideOf(m: Bytes, u: Bytes, d: nat)
    requires |m| == 10 && 1 <= d && d + |u| < |m| && forall k :: 0 <= k < |u| ==> u[k] == m[d + k]
    ensures Occurs(m[1..9], u)
  {
    var inner := m[1..9];
    forall k | 0 <= k < |u| ensures inner[d - 1 + k] == u[k] {
      assert inner[d - 1 + k] == m[d + k];
    }
    assert inner[d - 1..d - 1 + |u|] == u;
    assert OccursAt(m[1..9], u, d - 1);
  }

  // ---- The order of the secrets --------------------------------------------------------------

  /** Byte strings in lexicographic order. */
  predicate Less(a: Bytes, b: Bytes) {
    b != [] && (a == [] || a[0] < b[0] || (a[0] == b[0] && Less(a[1..], b[1..])))
  }

  /** Longer secrets come first. */
  predicate Before(a: Bytes, b: Bytes) {
    |a| > |b| || (|a| == |b| && Less(a, b))
  }

  predicate Normal(secrets: seq<Bytes>) {
    NonEmpty(secrets) && forall i, j :: 0 <= i < j < |secrets| ==> Before(secrets[i], secrets[j])
  }

  lemma {:induction false} LessTotal(a: Bytes, b: Bytes)
    requires |a| == |b|
    ensures a == b || Less(a, b) || Less(b, a)
  {
    if a != [] && a[0] == b[0] {
      LessTotal(a[1..], b[1..]);
      assert a == [a[0]] + a[1..] && b == [b[0]] + b[1..];
    }
  }

  lemma {:induction false} LessTransitive(a: Bytes, b: Bytes, c: Bytes)
    requires Less(a, b) && Less(b, c)
    ensures Less(a, c)
  {
    if a != [] && a[0] == b[0] == c[0] {
      LessTransitive(a[1..], b[1..], c[1..]);
    }
  }

  lemma {:induction false} LessIrreflexive(a: Bytes)
    ensures !Less(a, a)
  {
    if a != [] {
      LessIrreflexive(a[1..]);
    }
  }

  lemma BeforeTransitive(a: Bytes, b: Bytes, c: Bytes)
    requires Before(a, b) && Before(b, c)
    ensures Before(a, c)
  {
    if |a| == |c| {
      LessTransitive(a, b, c);
    }
  }

  lemma BeforeAsymmetric(a: Bytes, b: Bytes)
    requires Before(a, b)
    ensures !Before(b, a)
  {
    if Before(b, a) {
      BeforeTransitive(a, b, a);
      LessIrreflexive(a);
    }
  }

  lemma {:induction false} FirstExists(secrets: set<Bytes>) returns (first: Bytes)
    requires secrets != {}
    ensures first in secrets && forall s :: s in secrets && s != first ==> Before(first, s)
    decreases secrets
  {
    hide Before;
    var s :| s in secrets;
    if secrets == {s} {
      first := s;
    } else {
      var rest := FirstExists(secrets - {s});
      BeforeTotal(s, rest);
      first := if Before(s, rest) then s else rest;
      forall u | u in secrets && u != first ensures Before(first, u) {
        if first == s && u != rest {
          BeforeTransitive(s, rest, u);
        }
      }
    }
  }

  lemma BeforeTotal(a: Bytes, b: Bytes)
    ensures a == b || Before(a, b) || Before(b, a)
  {
    if |a| == |b| {
      LessTotal(a, b);
    }
  }

  /** However the secrets were listed, there is one order to replace them in. */
  lemma {:induction false} OrderIsUnique(a: seq<Bytes>, b: seq<Bytes>)
    requires Normal(a) && Normal(b) && forall s :: s in a <==> s in b
    ensures a == b
    decreases |a|
  {
    hide Before;
    if b != [] {
      NotAlone(b, a);
    }
    if a != [] {
      NotAlone(a, b);
      assert a[0] in b && b[0] in b && b[0] in a;
      if a[0] != b[0] {
        BeforeAsymmetric(a[0], b[0]);
      }
      forall s ensures s in a[1..] <==> s in b[1..] {
        RestOf(a, s);
        RestOf(b, s);
      }
      OrderIsUnique(a[1..], b[1..]);
      assert a == [a[0]] + a[1..] && b == [b[0]] + b[1..];
    }
  }

  lemma NotAlone(a: seq<Bytes>, b: seq<Bytes>)
    requires a != [] && forall s :: s in a ==> s in b
    ensures b != []
  {
    assert a[0] in b;
  }

  lemma RestOf(a: seq<Bytes>, s: Bytes)
    requires Normal(a) && a != []
    ensures s in a[1..] <==> s in a && s != a[0]
  {
    LessIrreflexive(a[0]);
    assert a == [a[0]] + a[1..];
    forall i | 1 <= i < |a| ensures a[i] != a[0] {
      assert Before(a[0], a[i]);
    }
  }

  /** The secrets in that order. */
  ghost predicate OrderOf(order: seq<Bytes>, secrets: seq<Bytes>) {
    Normal(order) && forall s :: s in order <==> s in secrets && s != []
  }

  lemma {:induction false} OrderExists(rest: set<Bytes>) returns (order: seq<Bytes>)
    requires [] !in rest
    ensures Normal(order) && forall s :: s in order <==> s in rest
    decreases rest
  {
    hide Before;
    if rest == {} {
      order := [];
    } else {
      var first := FirstExists(rest);
      var others := OrderExists(rest - {first});
      order := [first] + others;
      assert forall i :: 0 < i < |order| ==> order[i] == others[i - 1] && others[i - 1] in others;
    }
  }

  ghost function Order(secrets: seq<Bytes>): (order: seq<Bytes>)
    ensures OrderOf(order, secrets)
  {
    assert exists o :: OrderOf(o, secrets) by {
      var o := OrderExists(set s | s in secrets && s != []);
      assert OrderOf(o, secrets);
    }
    var o :| OrderOf(o, secrets);
    o
  }

  /** normalizeSecrets: the secrets that are not empty, once each, in the one order. */
  method NormalizeSecrets(secrets: seq<Bytes>) returns (r: seq<Bytes>)
    ensures Normal(r) && forall s :: s in r <==> s in secrets && s != []
    ensures forall i, j :: 0 <= i < j < |r| ==> |r[i]| > |r[j]| || (|r[i]| == |r[j]| && Less(r[i], r[j]))
  {
    hide Before, Less;
    var rest := set s | s in secrets && s != [];
    ghost var unique := rest;
    r := [];
    while rest != {}
      invariant rest <= unique && Normal(r) && forall s :: s in r <==> s in unique && s !in rest
      invariant forall i, s :: 0 <= i < |r| && s in rest ==> Before(r[i], s)
      decreases rest
    {
      ghost var witnessed := FirstExists(rest);
      var first :| first in rest && forall s :: s in rest && s != first ==> Before(first, s);
      ghost var sorted := r;
      r := r + [first];
      rest := rest - {first};
      assert forall s :: s in r <==> s in sorted || s == first;
    }
    LongerFirst(r);
  }

  lemma LongerFirst(secrets: seq<Bytes>)
    requires Normal(secrets)
    ensures forall i, j :: 0 <= i < j < |secrets| ==>
              |secrets[i]| > |secrets[j]| || (|secrets[i]| == |secrets[j]| && Less(secrets[i], secrets[j]))
  {
    hide Less;
  }

  // ---- The window ----------------------------------------------------------------------------

  predicate StartsWith(t: Bytes, u: Bytes) {
    |u| <= |t| && t[..|u|] == u
  }

  /** The contents begin with the last n bytes of a longer secret. */
  predicate Fragment(contents: Bytes, secret: Bytes, n: nat) {
    1 <= n < |secret| && StartsWith(contents, secret[|secret| - n..])
  }

  /** The longest end of a secret that the contents begin with. */
  ghost predicate LongestFragment(contents: Bytes, secrets: seq<Bytes>, n: nat) {
    && (forall i, m: nat :: 0 <= i < |secrets| && Fragment(contents, secrets[i], m) ==> m <= n)
    && (n == 0 || exists i :: 0 <= i < |secrets| && Fragment(contents, secrets[i], n))
  }

  lemma LongestIsUnique(contents: Bytes, secrets: seq<Bytes>, m: nat, n: nat)
    requires LongestFragment(contents, secrets, m) && LongestFragment(contents, secrets, n)
    ensures m == n
  {
  }

  /** The longest such end of one secret, of at most m bytes. */
  function Ends(contents: Bytes, secret: Bytes, m: nat): (r: nat)
    ensures r <= m && (r == 0 || Fragment(contents, secret, r))
    ensures forall k: nat :: r < k <= m ==> !Fragment(contents, secret, k)
  {
    if m == 0 || Fragment(contents, secret, m) then m else Ends(contents, secret, m - 1)
  }

  function FragmentLength(contents: Bytes, secrets: seq<Bytes>): (n: nat)
    ensures LongestFragment(contents, secrets, n) && n <= |contents|
  {
    if secrets == [] then 0
    else
      var last := |secrets| - 1;
      var rest := FragmentLength(contents, secrets[..last]);
      var own := Ends(contents, secrets[last], |secrets[last]|);
      if own > rest then own else rest
  }

  /** trimLeadingSecretFragment */
  method TrimLeadingSecretFragment(contents: Bytes, secrets: seq<Bytes>) returns (r: Bytes)
    ensures r == contents[FragmentLength(contents, secrets)..]
  {
    hide Fragment, FragmentLength;
    var n := 0;
    for i := 0 to |secrets|
      invariant forall j, m: nat :: 0 <= j < i && Fragment(contents, secrets[j], m) ==> m <= n
      invariant n == 0 || exists j :: 0 <= j < i && Fragment(contents, secrets[j], n)
    {
      ghost var was := n;
      var length := 1;
      while length < |secrets[i]|
        invariant 1 <= length && was <= n
        invariant forall m: nat :: Fragment(contents, secrets[i], m) && m < length ==> m <= n
        invariant n == was || Fragment(contents, secrets[i], n)
      {
        FragmentIs(contents, secrets[i], length);
        if length > n && StartsWith(contents, secrets[i][|secrets[i]| - length..]) {
          n := length;
        }
        length := length + 1;
      }
      FragmentsShort(contents, secrets[i], length);
    }
    LongestIsUnique(contents, secrets, n, FragmentLength(contents, secrets));
    r := contents[n..];
  }

  lemma FragmentIs(contents: Bytes, secret: Bytes, n: nat)
    requires 1 <= n < |secret|
    ensures Fragment(contents, secret, n) <==> StartsWith(contents, secret[|secret| - n..])
  {
  }

  lemma FragmentsShort(contents: Bytes, secret: Bytes, length: nat)
    requires length >= |secret|
    ensures forall m: nat :: Fragment(contents, secret, m) ==> m < length
  {
  }

  /** A secret of the file that the window cuts in two is trimmed off to its end. */
  lemma StraddlingSecretIsTrimmed(file: Bytes, secrets: seq<Bytes>, from: nat, to: nat, i: nat, at: nat)
    requires i < |secrets| && OccursAt(file, secrets[i], at) && at < from < at + |secrets[i]| <= to <= |file|
    ensures from + FragmentLength(file[from..to], secrets) >= at + |secrets[i]|
  {
    var secret := secrets[i];
    var m := at + |secret| - from;
    assert StartsWith(file[from..to], secret[|secret| - m..]) by {
      assert secret[|secret| - m..] == file[at..at + |secret|][|secret| - m..] == file[from..at + |secret|];
      assert file[from..to][..m] == file[from..from + m];
    }
    assert Fragment(file[from..to], secret, m);
  }

  // ---- The tail of a file ---------------------------------------------------------------------

  const DEFAULT_MAXIMUM := 1_048_576
  const MAX_INT := 0x7FFF_FFFF_FFFF_FFFF

  datatype Error = Negative | TooLarge | OpenFailed | StatFailed | SeekFailed | ReadFailed

  function Longest(secrets: seq<Bytes>): (r: nat)
    ensures forall i :: 0 <= i < |secrets| ==> |secrets[i]| <= r
    ensures r == 0 || exists i :: 0 <= i < |secrets| && |secrets[i]| == r
  {
    if secrets == [] then 0
    else
      var last := |secrets| - 1;
      var rest := Longest(secrets[..last]);
      assert forall i :: 0 <= i < last ==> secrets[i] == secrets[..last][i];
      if |secrets[last]| > rest then |secrets[last]| else rest
  }

  method MaxSecretBytes(secrets: seq<Bytes>) returns (r: nat)
    ensures r == Longest(secrets)
  {
    r := 0;
    for i := 0 to |secrets|
      invariant r == Longest(secrets[..i])
    {
      assert secrets[..i + 1][..i] == secrets[..i];
      if |secrets[i]| > r {
        r := |secrets[i]|;
      }
    }
    assert secrets[..|secrets|] == secrets;
  }

  /** How many bytes more than the maximum are read. */
  function Overlap(secrets: seq<Bytes>): nat {
    if Longest(secrets) == 0 then 0 else Longest(secrets) - 1
  }

  function Min(a: nat, b: nat): nat {
    if a < b then a else b
  }

  function Last(t: Bytes, n: nat): (r: Bytes)
    ensures |r| == Min(|t|, n) && r == t[|t| - |r|..]
  {
    if |t| <= n then t else t[|t| - n..]
  }

  function Bound(maximum: nat): nat {
    if maximum == 0 then DEFAULT_MAXIMUM else maximum
  }

  /** What is shown of a window: trimmed, redacted and bounded. */
  ghost function Shown(window: Bytes, secrets: seq<Bytes>, limit: nat): Bytes {
    Last(Redact(window[FragmentLength(window, secrets)..], Order(secrets)), limit)
  }

  /** What ReadLogTail returns for a file. */
  ghost function TailOf(file: Bytes, limit: nat, secrets: seq<Bytes>): Bytes {
    Shown(Last(file, limit + Overlap(secrets)), secrets, limit)
  }

  lemma LastHidesNothing(t: Bytes, n: nat, u: Bytes)
    requires !Occurs(t, u)
    ensures !Occurs(Last(t, n), u)
  {
    if |t| > n && Occurs(Last(t, n), u) {
      var i: nat :| OccursAt(t[|t| - n..], u, i);
      assert t[|t| - n..] == t[|t| - n..|t|];
      InPart(t, u, |t| - n, |t|, i);
    }
  }

  /** Nothing that is shown contains a secret that does not clash. */
  lemma ShownIsClean(window: Bytes, secrets: seq<Bytes>, limit: nat, u: Bytes)
    requires u in secrets && u != [] && !Clashes(u)
    ensures !Occurs(Shown(window, secrets, limit), u)
  {
    hide Occurs, Clashes, FragmentLength, Redact, Last;
    SecretIsGone(window[FragmentLength(window, secrets)..], Order(secrets), u);
    LastHidesNothing(Redact(window[FragmentLength(window, secrets)..], Order(secrets)), limit, u);
  }

  /** The window is wide enough: trimming a full one costs nothing of the last bytes. */
  lemma TrimmingIsFree(window: Bytes, secrets: seq<Bytes>, limit: nat)
    requires |window| >= limit + Overlap(secrets)
    ensures |window| - FragmentLength(window, secrets) >= limit
  {
    var n := FragmentLength(window, secrets);
    if n > 0 {
      var i :| 0 <= i < |secrets| && Fragment(window, secrets[i], n);
      assert |secrets[i]| <= Longest(secrets);
    }
  }

  /** The faults of the operating system, in the order of the code. */
  datatype Access = Access(present: bool, opens: bool, stats: bool, seeks: bool, readable: bool)

  /** ReadLogTail. `size` is what the file reports, `file` what it holds when it is read, which may be something
      else; `window` is what is read of it. */
  method ReadLogTail(named: bool, access: Access, size: nat, file: Bytes, maximum: int, secrets: seq<Bytes>)
    returns (r: Result<Bytes, Error>, ghost window: Bytes, ghost whole: Bytes)
    ensures named && maximum < 0 ==> r == Err(Negative)
    ensures r.Ok? && maximum >= 0 ==> |r.value| <= Bound(maximum)
    // no secret that keeps clear of the marker is in the result
    ensures r.Ok? ==> forall u :: u in secrets && u != [] && !Clashes(u) ==> !Occurs(r.value, u)
    // it is what is shown of the window, and of a file that stands still the window is the end
    ensures named && r.Ok? && access.present && maximum >= 0 ==>
              && r.value == Shown(window, secrets, Bound(maximum))
              && Redaction(window[FragmentLength(window, secrets)..], Order(secrets), whole)
              && |r.value| == Min(|whole|, Bound(maximum)) && r.value == whole[|whole| - |r.value|..]
              && (size == |file| ==> r.value == TailOf(file, Bound(maximum), secrets))
    ensures !named || (r.Ok? && !access.present) ==> r == Ok([])
    // the first operation that fails names itself; only a file larger than the window is positioned
    ensures named && maximum >= 0 && Bound(maximum) + Overlap(secrets) <= MAX_INT && access.present ==>
              if !access.opens then r == Err(OpenFailed)
              else if !access.stats then r == Err(StatFailed)
              else if size > Bound(maximum) + Overlap(secrets) && !access.seeks then r == Err(SeekFailed)
              else if !access.readable then r == Err(ReadFailed)
              else r.Ok?
    // what is read begins where the end of the reported size is as long as the window
    ensures named && r.Ok? && access.present && maximum >= 0 ==>
              var full := Bound(maximum) + Overlap(secrets);
              var from := if size > full then size - full else 0;
              window == if from <= |file| then file[from..][..Min(|file| - from, full)] else []
    ensures named && maximum >= 0 ==> (r == Err(TooLarge) <==> Bound(maximum) + Overlap(secrets) > MAX_INT)
  {
    hide Redact, Redaction, Occurs, Clashes, FragmentLength, Longest, Shown, Order;
    window, whole := [], [];
    NothingInNothing();
    if !named {
      return Ok([]), window, whole;
    }
    var limit := if maximum == 0 then DEFAULT_MAXIMUM else maximum;
    if limit < 0 {
      return Err(Negative), window, whole;
    }
    var longest := MaxSecretBytes(secrets);
    var overlap := if longest == 0 then 0 else longest - 1;
    if limit > MAX_INT - overlap {
      return Err(TooLarge), window, whole;
    }
    if !access.present {
      return Ok([]), window, whole;
    }
    if !access.opens {
      return Err(OpenFailed), window, whole;
    }
    if !access.stats {
      return Err(StatFailed), window, whole;
    }
    var from := 0;
    if size > limit + overlap {
      if !access.seeks {
        return Err(SeekFailed), window, whole;
      }
      from := size - (limit + overlap);
    }
    if !access.readable {
      return Err(ReadFailed), window, whole;
    }
    var rest := if from <= |file| then file[from..] else [];
    var contents := if |rest| <= limit + overlap then rest else rest[..limit + overlap];
    window := contents;
    var shown;
    shown, whole := Show(contents, secrets, limit);
    r := Ok(shown);
  }

  /** The window, trimmed, redacted and bounded. */
  method Show(contents: Bytes, secrets: seq<Bytes>, limit: nat) returns (r: Bytes, ghost whole: Bytes)
    ensures r == Shown(contents, secrets, limit)
    ensures Redaction(contents[FragmentLength(contents, secrets)..], Order(secrets), whole)
    ensures |r| == Min(|whole|, limit) && r == whole[|whole| - |r|..]
    ensures forall u :: u in secrets && u != [] && !Clashes(u) ==> !Occurs(r, u)
  {
    hide Redact, Redaction, Occurs, Clashes, FragmentLength, Normal, Longest, Shown;
    var trimmed := TrimLeadingSecretFragment(contents, secrets);
    var order := NormalizeSecrets(secrets);
    OrderIsUnique(order, Order(secrets));
    NormalIsNonEmpty(order);
    whole := Redact(trimmed, order);
    RedactIsRedaction(trimmed, order);
    r := Last(Redact(trimmed, order), limit);
    ShownIs(contents, secrets, limit);
    forall u | u in secrets && u != [] && !Clashes(u) ensures !Occurs(r, u) {
      ShownIsClean(contents, secrets, limit, u);
    }
  }

  lemma ShownIs(window: Bytes, secrets: seq<Bytes>, limit: nat)
    ensures Shown(window, secrets, limit) ==
      Last(Redact(window[FragmentLength(window, secrets)..], Order(secrets)), limit)
  {
  }

  lemma NothingInNothing()
    ensures forall u: Bytes :: u != [] ==> !Occurs([], u)
  {
  }

  lemma NormalIsNonEmpty(secrets: seq<Bytes>)
    requires Normal(secrets)
    ensures NonEmpty(secrets)
  {
  }
}
