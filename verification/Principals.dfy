/** The text form of a cached principal: four fields separated by bars. */
module Principals {
  import opened Wrappers

  datatype Principal = Principal(userId: string, deviceId: string, sessionId: string, role: string)

  function Encode(p: Principal): string {
    p.userId + "|" + p.deviceId + "|" + p.sessionId + "|" + p.role
  }

  /** A text cut at its bars: the pieces that a bar closes, and the last, open piece. */
  datatype Pieces = Pieces(closed: seq<string>, last: string) {
    function All(): seq<string> { closed + [last] }
  }

  function Extend(p: Pieces, c: char): Pieces {
    if c == '|' then Pieces(p.closed + [p.last], "") else Pieces(p.closed, p.last + [c])
  }

  function Cut(v: string): Pieces {
    if v == "" then Pieces([], "") else Extend(Cut(v[..|v| - 1]), v[|v| - 1])
  }

  function Bars(v: string): nat {
    if v == "" then 0 else Bars(v[..|v| - 1]) + (if v[|v| - 1] == '|' then 1 else 0)
  }

  function Decoded(v: string): Option<Principal> {
    var f := Cut(v).All();
    if |f| == 4 && f[0] != "" then Some(Principal(f[0], f[1], f[2], f[3])) else None
  }

  lemma CutSnoc(v: string, c: char)
    ensures Cut(v + [c]) == Extend(Cut(v), c)
  {
    assert (v + [c])[..|v|] == v;
  }

  lemma CutNext(v: string, i: nat)
    requires i < |v|
    ensures Cut(v[..i + 1]) == Extend(Cut(v[..i]), v[i])
  {
    assert v[..i + 1] == v[..i] + [v[i]];
    CutSnoc(v[..i], v[i]);
  }

  function At(fields: seq<string>, k: nat): string { if k < |fields| then fields[k] else "" }

  /** The first four fields, as far as they have been closed. */
  function FromFields(fields: seq<string>): Principal {
    Principal(At(fields, 0), At(fields, 1), At(fields, 2), At(fields, 3))
  }

  /** Field number `n` read off; fields past the fourth are only counted. */
  function Put(p: Principal, n: nat, field: string): Principal {
    match n
    case 0 => p.(userId := field)
    case 1 => p.(deviceId := field)
    case 2 => p.(sessionId := field)
    case 3 => p.(role := field)
    case _ => p
  }

  lemma PutNext(fields: seq<string>, field: string)
    ensures Put(FromFields(fields), |fields|, field) == FromFields(fields + [field])
  {
  }

  /** Read up to `i`: the fields closed so far, and where the open one starts. */
  ghost predicate Scanned(v: string, i: nat, closed: seq<string>, start: nat) {
    start <= i <= |v| && Cut(v[..i]) == Pieces(closed, v[start..i])
  }

  lemma ScanNext(v: string, i: nat, closed: seq<string>, start: nat)
    requires Scanned(v, i, closed, start) && i < |v|
    ensures if v[i] == '|' then Scanned(v, i + 1, closed + [v[start..i]], i + 1) else Scanned(v, i + 1, closed, start)
  {
    CutNext(v, i);
    assert v[start..i + 1] == v[start..i] + [v[i]];
  }

  lemma ScanEnds(v: string, closed: seq<string>, start: nat)
    requires Scanned(v, |v|, closed, start)
    ensures Cut(v).All() == closed + [v[start..|v|]]
  {
    assert v[..|v|] == v;
  }

  /** The parser: one pass that closes a field at every bar and at the end of the input. */
  method DecodePrincipal(v: string) returns (r: Option<Principal>)
    ensures r == Decoded(v)
  {
    var p := Principal("", "", "", "");
    var n, start := 0, 0;
    ghost var closed: seq<string> := [];
    for i := 0 to |v| + 1
      invariant if i <= |v| then Scanned(v, i, closed, start) else Cut(v).All() == closed
      invariant n == |closed| && p == FromFields(closed)
    {
      if i < |v| {
        ScanNext(v, i, closed, start);
      } else {
        ScanEnds(v, closed, start);
      }
      if i == |v| || v[i] == '|' {
        PutNext(closed, v[start..i]);
        p := Put(p, n, v[start..i]);
        closed := closed + [v[start..i]];
        n := n + 1;
        start := i + 1;
      }
    }
    if n != 4 || p.userId == "" {
      return None;
    }
    return Some(p);
  }

  /** Two texts joined by a bar. */
  function Barred(a: string, b: string): string { a + "|" + b }

  function Both(p: Pieces, q: Pieces): Pieces { Pieces(p.All() + q.closed, q.last) }

  lemma BothExtend(p: Pieces, q: Pieces, c: char)
    ensures Both(p, Extend(q, c)) == Extend(Both(p, q), c)
  {
  }

  lemma BarredSnoc(a: string, b: string, c: char)
    requires Cut(Barred(a, b)) == Both(Cut(a), Cut(b))
    ensures Cut(Barred(a, b + [c])) == Both(Cut(a), Cut(b + [c]))
  {
    assert Barred(a, b + [c]) == Barred(a, b) + [c];
    CutSnoc(Barred(a, b), c);
    CutSnoc(b, c);
    BothExtend(Cut(a), Cut(b), c);
  }

  /** A bar separates: the pieces of both sides, one after the other. */
  lemma {:induction false} CutConcat(a: string, b: string)
    ensures Cut(Barred(a, b)) == Both(Cut(a), Cut(b))
    decreases |b|
  {
    if b == "" {
      assert Barred(a, b) == a + ['|'];
      CutSnoc(a, '|');
    } else {
      CutConcat(a, b[..|b| - 1]);
      BarredSnoc(a, b[..|b| - 1], b[|b| - 1]);
      assert b == b[..|b| - 1] + [b[|b| - 1]];
    }
  }

  lemma {:induction false} CutCount(v: string)
    ensures |Cut(v).closed| == Bars(v)
    ensures Bars(v) == 0 <==> '|' !in v
    ensures Bars(v) == 0 ==> Cut(v) == Pieces([], v)
    decreases |v|
  {
    if v != "" {
      var w, c := v[..|v| - 1], v[|v| - 1];
      CutCount(w);
      assert v == w + [c];
    }
  }

  lemma {:induction false} CutHead(v: string)
    ensures Cut(v).All()[0] != "" <==> v != "" && v[0] != '|'
    decreases |v|
  {
    if |v| > 1 {
      CutHead(v[..|v| - 1]);
      assert v[..|v| - 1][0] == v[0];
    }
  }

  function Join(p: Pieces): string
    decreases |p.closed|
  {
    var k := |p.closed|;
    if k == 0 then p.last else Join(Pieces(p.closed[..k - 1], p.closed[k - 1])) + "|" + p.last
  }

  /** Joining undoes cutting one character at a time. */
  lemma JoinExtend(p: Pieces, c: char)
    ensures Join(Extend(p, c)) == Join(p) + [c]
  {
    var k := |p.closed|;
    if c == '|' {
      assert (p.closed + [p.last])[..k] == p.closed;
      assert Join(Extend(p, c)) == Join(p) + "|" + "";
    } else if k > 0 {
      var head := Join(Pieces(p.closed[..k - 1], p.closed[k - 1])) + "|";
      assert head + (p.last + [c]) == (head + p.last) + [c];
    }
  }

  lemma JoinCutSnoc(v: string, c: char)
    requires Join(Cut(v)) == v
    ensures Join(Cut(v + [c])) == v + [c]
  {
    CutSnoc(v, c);
    JoinExtend(Cut(v), c);
  }

  lemma LastChar(v: string) returns (w: string, c: char)
    requires v != ""
    ensures v == w + [c]
  {
    w, c := v[..|v| - 1], v[|v| - 1];
  }

  lemma {:induction false} JoinCut(v: string)
    ensures Join(Cut(v)) == v
    decreases |v|
  {
    if v != "" {
      var w, c := LastChar(v);
      JoinCut(w);
      JoinCutSnoc(w, c);
    }
  }

  predicate Clean(p: Principal) {
    p.userId != "" && '|' !in p.userId && '|' !in p.deviceId && '|' !in p.sessionId && '|' !in p.role
  }

  lemma BothAll(p: Pieces, q: Pieces)
    ensures Both(p, q).All() == p.All() + q.All()
  {
  }

  lemma BarredFields(a: string, b: string)
    ensures Cut(Barred(a, b)).All() == Cut(a).All() + Cut(b).All()
  {
    CutConcat(a, b);
    BothAll(Cut(a), Cut(b));
  }

  lemma EncodedFields(p: Principal)
    ensures Cut(Encode(p)).All() == Cut(p.userId).All() + Cut(p.deviceId).All() + Cut(p.sessionId).All() +
            Cut(p.role).All()
  {
    assert Encode(p) == Barred(Barred(Barred(p.userId, p.deviceId), p.sessionId), p.role);
    BarredFields(p.userId, p.deviceId);
    BarredFields(Barred(p.userId, p.deviceId), p.sessionId);
    BarredFields(Barred(Barred(p.userId, p.deviceId), p.sessionId), p.role);
  }

  /** A field without bars is one piece; every bar makes one more. */
  lemma FieldPieces(v: string)
    ensures |Cut(v).All()| == Bars(v) + 1
    ensures '|' !in v ==> Cut(v).All() == [v]
    ensures '|' in v ==> |Cut(v).All()| > 1
  {
    CutCount(v);
  }

  lemma CleanComesBack(p: Principal)
    requires Clean(p)
    ensures Decoded(Encode(p)) == Some(p)
  {
    EncodedFields(p);
    FieldPieces(p.userId);
    FieldPieces(p.deviceId);
    FieldPieces(p.sessionId);
    FieldPieces(p.role);
    assert Cut(Encode(p)).All() == [p.userId, p.deviceId, p.sessionId, p.role];
  }

  /** A bar in a field makes one field too many, and an empty user id an empty first one. */
  lemma UncleanIsRejected(p: Principal)
    requires !Clean(p)
    ensures Decoded(Encode(p)) == None
  {
    EncodedFields(p);
    FieldPieces(p.userId);
    FieldPieces(p.deviceId);
    FieldPieces(p.sessionId);
    FieldPieces(p.role);
    if p.userId == "" {
      assert Cut(Encode(p)).All()[0] == "";
    }
  }

  /** Printing and parsing: a clean principal comes back unchanged, and any other is rejected, so the
      cache can never answer with a principal that was not stored. */
  lemma DecodeAfterEncode(p: Principal)
    ensures Decoded(Encode(p)) == if Clean(p) then Some(p) else None
  {
    if Clean(p) {
      CleanComesBack(p);
    } else {
      UncleanIsRejected(p);
    }
  }

  /** Any text the parser accepts prints back to itself. */
  lemma EncodeAfterDecode(v: string)
    requires Decoded(v).Some?
    ensures Encode(Decoded(v).value) == v
  {
    var c := Cut(v).closed;
    JoinCut(v);
    assert c[..2][..1] == c[..1];
    assert Join(Pieces(c[..1], c[1])) == c[0] + "|" + c[1];
    assert Join(Pieces(c[..2], c[2])) == c[0] + "|" + c[1] + "|" + c[2];
  }

  /** The parser accepts exactly the texts with three bars and something before the first. */
  lemma AcceptsExactly(v: string)
    ensures Decoded(v).Some? <==> Bars(v) == 3 && v[0] != '|'
  {
    CutCount(v);
    CutHead(v);
  }
}
