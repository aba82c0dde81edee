/** Escaping C1 control characters in JSON output (internal/cli/daemon.go,
    escapeC1), with the decoding of UTF-8 it goes by (section 3 of RFC 3629). */
module EscapeC1 {
  import opened Wrappers
  import opened Text

  type Bytes = seq<Byte>

  const REPLACEMENT: nat := 0xFFFD

  // ---------------------------------------------------------- decoding UTF-8

  predicate IsCont(b: Byte) { 0x80 <= b <= 0xBF }

  /** How many bytes the first byte of a character asks for; 1 when none starts
      with it. */
  function Wanted(b: Byte): nat {
    if 0xC2 <= b <= 0xDF then 2 else if 0xE0 <= b <= 0xEF then 3 else if 0xF0 <= b <= 0xF4 then 4 else 1
  }

  /** The second bytes that may follow the first. */
  predicate SecondOk(b: Byte, c: Byte) {
    && IsCont(c)
    && (b == 0xE0 ==> c >= 0xA0) && (b == 0xED ==> c <= 0x9F)
    && (b == 0xF0 ==> c >= 0x90) && (b == 0xF4 ==> c <= 0x8F)
  }

  /** Whether the bytes start with a whole character of several bytes. */
  predicate IsWhole(s: Bytes) requires s != [] {
    var n := Wanted(s[0]);
    n > 1 && |s| >= n && SecondOk(s[0], s[1]) && forall i | 2 <= i < n :: IsCont(s[i])
  }

  /** The first character and its length; an ill-formed byte is one replacement
      character. */
  function Decode(s: Bytes): (r: (nat, nat))
    requires s != []
    ensures 1 <= r.1 <= |s|
  {
    if s[0] < 0x80 then (s[0], 1)
    else if !IsWhole(s) then (REPLACEMENT, 1)
    else
      var a: int, b: int := s[0], s[1];
      if Wanted(s[0]) == 2 then ((a - 0xC0) * 0x40 + (b - 0x80), 2)
      else
        var c: int := s[2];
        if Wanted(s[0]) == 3 then ((a - 0xE0) * 0x1000 + (b - 0x80) * 0x40 + (c - 0x80), 3)
        else
          var d: int := s[3];
          ((a - 0xF0) * 0x40000 + (b - 0x80) * 0x1000 + (c - 0x80) * 0x40 + (d - 0x80), 4)
  }

  predicate IsScalar(r: nat) { r < 0xD800 || 0xE000 <= r <= 0x10FFFF }

  /** A character's bytes. */
  function Encode(r: nat): Bytes requires IsScalar(r) {
    if r < 0x80 then [r]
    else if r < 0x800 then [0xC0 + r / 0x40, 0x80 + r % 0x40]
    else
      var low, mid := r % 0x40, r / 0x40;
      if r < 0x10000 then [0xE0 + mid / 0x40, 0x80 + mid % 0x40, 0x80 + low]
      else [0xF0 + mid / 0x1000, 0x80 + mid / 0x40 % 0x40, 0x80 + mid % 0x40, 0x80 + low]
  }

  /** Decoding is the inverse of encoding. */
  lemma DecodesEncoded(r: nat, rest: Bytes)
    requires IsScalar(r)
    ensures Decode(Encode(r) + rest) == (r, |Encode(r)|)
  {
    var s := Encode(r) + rest;
    forall i | 0 <= i < |Encode(r)| ensures s[i] == Encode(r)[i] {}
    if r >= 0x10000 { DecodesFour(r, s); } else if r >= 0x800 { DecodesThree(r, s); } else if r >= 0x80 { DecodesTwo(r, s); }
  }

  lemma DecodesTwo(r: nat, s: Bytes)
    requires 0x80 <= r < 0x800 && |s| >= 2 && s[0] == Encode(r)[0] && s[1] == Encode(r)[1]
    ensures Decode(s) == (r, 2)
  {}

  lemma DecodesThree(r: nat, s: Bytes)
    requires 0x800 <= r < 0x10000 && IsScalar(r) && |s| >= 3
    requires s[0] == Encode(r)[0] && s[1] == Encode(r)[1] && s[2] == Encode(r)[2]
    ensures Decode(s) == (r, 3)
  {
    var a, b, c := r / 0x1000, r / 0x40 % 0x40, r % 0x40;
    assert r / 0x40 / 0x40 == a && r == a * 0x1000 + b * 0x40 + c;
    assert s[0] == 0xE0 + a && s[1] == 0x80 + b && s[2] == 0x80 + c;
    assert Wanted(s[0]) == 3;
  }

  lemma DecodesFour(r: nat, s: Bytes)
    requires 0x10000 <= r <= 0x10FFFF && |s| >= 4
    requires s[0] == Encode(r)[0] && s[1] == Encode(r)[1] && s[2] == Encode(r)[2] && s[3] == Encode(r)[3]
    ensures Decode(s) == (r, 4)
  {
    var m, d := r / 0x40, r % 0x40;
    var a, b, c := m / 0x1000, m / 0x40 % 0x40, m % 0x40;
    assert m == a * 0x1000 + b * 0x40 + c && r == m * 0x40 + d;
    assert s[0] == 0xF0 + a && s[1] == 0x80 + b && s[2] == 0x80 + c && s[3] == 0x80 + d;
    assert Wanted(s[0]) == 4;
  }

  /** The characters of a text. */
  function Runes(s: Bytes): seq<nat> {
    if s == [] then [] else [Decode(s).0] + Runes(s[Decode(s).1..])
  }

  predicate IsC1(r: nat) { 0x80 <= r <= 0x9F }

  // ---------------------------------------------------------------- escaping

  function HexDigit(n: nat): Byte requires n < 16 { if n < 10 then 0x30 + n else 0x61 + n - 10 }

  /** \u and four hexadecimal digits of a C1 character. */
  function Escape(r: nat): (e: Bytes)
    requires IsC1(r)
    ensures |e| == 6
  {
    [0x5C, 0x75, 0x30, 0x30, if r < 0x90 then 0x38 else 0x39, HexDigit(if r < 0x90 then r - 0x80 else r - 0x90)]
  }

  /** What one character is rewritten to. */
  function Rewrite(s: Bytes): Bytes requires s != [] {
    if IsC1(Decode(s).0) then Escape(Decode(s).0) else s[..Decode(s).1]
  }

  function Escaped(s: Bytes): Bytes {
    if s == [] then [] else Rewrite(s) + Escaped(s[Decode(s).1..])
  }

  /** What is escaped so far, and what is left. */
  ghost predicate Goes(b: Bytes, i: nat, out: Bytes) { i <= |b| && out + Escaped(b[i..]) == Escaped(b) }

  lemma GoesOn(b: Bytes, i: nat, out: Bytes, piece: Bytes)
    requires i < |b| && Goes(b, i, out) && piece == Rewrite(b[i..])
    ensures Goes(b, i + Decode(b[i..]).1, out + piece)
  {
    var size := Decode(b[i..]).1;
    var rest := Escaped(b[i + size..]);
    assert b[i..][size..] == b[i + size..];
    EscapedIs(b[i..]);
    assert out + (piece + rest) == (out + piece) + rest;
  }

  lemma EscapedIs(s: Bytes)
    requires s != []
    ensures Escaped(s) == Rewrite(s) + Escaped(s[Decode(s).1..])
  {}

  lemma GoesWhole(b: Bytes)
    ensures Goes(b, 0, []) && forall out | Goes(b, |b|, out) :: out == Escaped(b)
  {
    assert b[0..] == b && b[|b|..] == [];
    forall out | Goes(b, |b|, out) ensures out == Escaped(b) { assert out + [] == out; }
  }

  method EscapeAll(b: Bytes) returns (out: Bytes)
    ensures out == Escaped(b)
  {
    out := [];
    var i := 0;
    GoesWhole(b);
    while i < |b|
      invariant Goes(b, i, out)
    {
      var piece, size := OnePiece(b, i);
      GoesOn(b, i, out, piece);
      out := out + piece;
      i := i + size;
    }
  }

  method OnePiece(b: Bytes, i: nat) returns (piece: Bytes, size: nat)
    requires i < |b|
    ensures piece == Rewrite(b[i..]) && size == Decode(b[i..]).1
  {
    var r;
    r, size := Decode(b[i..]).0, Decode(b[i..]).1;
    piece := if IsC1(r) then Escape(r) else b[i..i + size];
  }

  // ------------------------------------------------------- continuation bytes

  /** How many continuation bytes the text starts with. */
  function Run(s: Bytes): (n: nat)
    ensures n <= |s| && (forall i | 0 <= i < n :: IsCont(s[i])) && (n < |s| ==> !IsCont(s[n]))
  {
    if s == [] || !IsCont(s[0]) then 0 else 1 + Run(s[1..])
  }

  /** A C1 character is two bytes, the first no continuation byte. */
  lemma C1Bytes(s: Bytes)
    requires s != []
    ensures IsC1(Decode(s).0) ==> Decode(s).1 == 2 && s[0] == 0xC2 && Decode(s).0 == s[1]
    ensures |s| >= 2 && s[0] == 0xC2 && 0x80 <= s[1] <= 0x9F ==> Decode(s) == (s[1], 2)
  {
    if s[0] >= 0x80 && IsWhole(s) && Wanted(s[0]) == 3 {
      assert Decode(s).0 >= 0x800;
    }
    if s[0] >= 0x80 && IsWhole(s) && Wanted(s[0]) == 4 {
      assert Decode(s).0 >= 0x10000;
    }
  }

  lemma RunOfMore(x: Byte, t: Bytes)
    ensures Run([x] + t) == if IsCont(x) then 1 + Run(t) else 0
  {
    assert ([x] + t)[1..] == t;
  }

  lemma EscapedCont(s: Bytes)
    requires s != [] && IsCont(s[0])
    ensures Escaped(s) == [s[0]] + Escaped(s[1..])
  {
    assert Decode(s) == (REPLACEMENT, 1);
  }

  lemma ContStays(x: Byte, s: Bytes, e: Bytes)
    requires IsCont(x) && Run(e) == Run(s) && e[..Run(s)] == s[..Run(s)]
    ensures Run([x] + e) == Run([x] + s) && ([x] + e)[..Run([x] + s)] == ([x] + s)[..Run([x] + s)]
  {
    RunOfMore(x, s);
    RunOfMore(x, e);
    assert ([x] + e)[..1 + Run(s)] == [x] + e[..Run(s)];
    assert ([x] + s)[..1 + Run(s)] == [x] + s[..Run(s)];
  }

  /** Escaping keeps the continuation bytes a text starts with, and makes no
      more. */
  lemma {:induction false} RunStays(s: Bytes)
    ensures Run(Escaped(s)) == Run(s) && Escaped(s)[..Run(s)] == s[..Run(s)]
    decreases |s|
  {
    if s != [] {
      C1Bytes(s);
      if IsCont(s[0]) {
        RunStays(s[1..]);
        EscapedCont(s);
        ContStays(s[0], s[1..], Escaped(s[1..]));
        assert s == [s[0]] + s[1..];
      } else {
        assert Escaped(s)[0] == s[0] || Escaped(s)[0] == 0x5C;
      }
    }
  }

  /** What a text starts with depends only on its first byte and the continuation
      bytes right after it. */
  lemma DecodeByRun(b: Byte, s: Bytes, t: Bytes)
    requires Run(s) == Run(t) && s[..Run(s)] == t[..Run(s)]
    ensures Decode([b] + s) == Decode([b] + t)
  {
    var n := Run(s);
    forall i | 0 <= i < n ensures s[i] == t[i] { assert s[i] == s[..n][i] && t[i] == t[..n][i]; }
    WholeByRun(b, s);
    WholeByRun(b, t);
  }

  lemma WholeByRun(b: Byte, s: Bytes)
    ensures IsWhole([b] + s) <==> Wanted(b) > 1 && Run(s) >= Wanted(b) - 1 && SecondOk(b, s[0])
  {
    var all, n := [b] + s, Wanted(b);
    if IsWhole(all) {
      forall i | 0 <= i < n - 1 ensures IsCont(s[i]) { assert s[i] == all[i + 1]; }
    }
    if n > 1 && Run(s) >= n - 1 {
      forall i | 1 <= i < n ensures IsCont(all[i]) { assert all[i] == s[i - 1]; }
    }
  }

  // ------------------------------------------------------- what escaping keeps

  /** Any character but a C1 one stays first as it is: an ill-formed byte too,
      whatever comes after it. */
  lemma FirstStays(s: Bytes)
    requires s != [] && !IsC1(Decode(s).0)
    ensures Escaped(s) == s[..Decode(s).1] + Escaped(s[Decode(s).1..])
    ensures Decode(Escaped(s)) == Decode(s)
  {
    var n, rest := Decode(s).1, Escaped(s[Decode(s).1..]);
    assert Escaped(s) == s[..n] + rest;
    if n == 1 {
      assert s == [s[0]] + s[1..] && s[..1] == [s[0]];
      RunStays(s[1..]);
      DecodeByRun(s[0], s[1..], rest);
    } else {
      WholeStays(s, s[..n] + rest);
    }
  }

  lemma WholeStays(s: Bytes, t: Bytes)
    requires s != [] && s[0] >= 0x80 && IsWhole(s) && |t| >= Wanted(s[0]) && t[..Wanted(s[0])] == s[..Wanted(s[0])]
    ensures Decode(t) == Decode(s)
  {
    forall i | 0 <= i < Wanted(s[0]) ensures t[i] == s[i] { assert t[i] == t[..Wanted(s[0])][i] && s[i] == s[..Wanted(s[0])][i]; }
  }

  lemma RunesStep(s: Bytes, n: nat, rest: Bytes)
    requires s != [] && Decode(s).1 == n && s[n..] == rest
    ensures Runes(s) == [Decode(s).0] + Runes(rest)
  {}

  lemma {:induction false} RunesOfAscii(a: Bytes, t: Bytes)
    requires forall i | 0 <= i < |a| :: a[i] < 0x80
    ensures forall r | r in Runes(a + t) :: r < 0x80 || r in Runes(t)
  {
    if a != [] {
      RunesOfAscii(a[1..], t);
      assert (a + t)[1..] == a[1..] + t;
      RunesStep(a + t, 1, a[1..] + t);
    } else {
      assert a + t == t;
    }
  }

  /** No C1 character is left. */
  lemma {:induction false} NoC1Left(s: Bytes)
    ensures forall r | r in Runes(Escaped(s)) :: !IsC1(r)
    decreases |s|
  {
    if s != [] {
      var n := Decode(s).1;
      NoC1Left(s[n..]);
      if IsC1(Decode(s).0) {
        RunesOfAscii(Escape(Decode(s).0), Escaped(s[n..]));
      } else {
        FirstStays(s);
        assert (s[..n] + Escaped(s[n..]))[n..] == Escaped(s[n..]);
        RunesStep(Escaped(s), n, Escaped(s[n..]));
      }
    }
  }

  /** Text without C1 characters stays as it is, ill-formed bytes included. */
  lemma {:induction false} OthersStay(s: Bytes)
    requires forall r | r in Runes(s) :: !IsC1(r)
    ensures Escaped(s) == s
    decreases |s|
  {
    if s != [] {
      var n := Decode(s).1;
      RunesStep(s, n, s[n..]);
      OthersStay(s[n..]);
      assert s == s[..n] + s[n..];
    }
  }

  /** Escaping twice is escaping once. */
  lemma Idempotent(s: Bytes)
    ensures Escaped(Escaped(s)) == Escaped(s)
  {
    NoC1Left(s);
    OthersStay(Escaped(s));
  }

  // ------------------------------------------------------------- JSON strings

  function HexValue(b: Byte): Option<nat> {
    if 0x30 <= b <= 0x39 then Some(b - 0x30)
    else if 0x61 <= b <= 0x66 then Some(b - 0x61 + 10)
    else if 0x41 <= b <= 0x46 then Some(b - 0x41 + 10)
    else None
  }

  function Hex4(a: Byte, b: Byte, c: Byte, d: Byte): Option<nat> {
    var w, x, y, z := HexValue(a), HexValue(b), HexValue(c), HexValue(d);
    if w.Some? && x.Some? && y.Some? && z.Some? then Some(w.value * 0x1000 + x.value * 0x100 + y.value * 0x10 + z.value) else None
  }

  /** A character in UTF-16 code units. */
  function Utf16(r: nat): seq<nat> {
    if r < 0x10000 then [r] else [0xD800 + (r - 0x10000) / 0x400, 0xDC00 + (r - 0x10000) % 0x400]
  }

  /** What a backslash and this byte stand for. */
  function ShortEscape(b: Byte): Option<nat> {
    if b in {0x22, 0x5C, 0x2F} then Some(b)
    else if b == 0x62 then Some(8)
    else if b == 0x66 then Some(12)
    else if b == 0x6E then Some(10)
    else if b == 0x72 then Some(13)
    else if b == 0x74 then Some(9)
    else None
  }

  /** The first piece of a string's text (section 7 of RFC 8259): its code units
      and its length; nothing when it is ill-formed. */
  function Piece(s: Bytes): (p: Option<(seq<nat>, nat)>)
    requires s != []
    ensures p.Some? ==> 1 <= p.value.1 <= |s|
  {
    if s[0] == 0x5C then
      if |s| >= 2 && ShortEscape(s[1]).Some? then Some(([ShortEscape(s[1]).value], 2))
      else if |s| >= 6 && s[1] == 0x75 && Hex4(s[2], s[3], s[4], s[5]).Some? then Some(([Hex4(s[2], s[3], s[4], s[5]).value], 6))
      else None
    else if s[0] == 0x22 || s[0] < 0x20 then None
    else if s[0] < 0x80 then Some(([s[0]], 1))
    else if IsWhole(s) then Some((Utf16(Decode(s).0), Decode(s).1))
    else None
  }

  /** The value of a string's text, in UTF-16 code units. */
  function Units(s: Bytes): Option<seq<nat>>
    decreases |s|
  {
    if s == [] then Some([])
    else
      var p := Piece(s);
      if p.None? then None
      else
        var rest := Units(s[p.value.1..]);
        if rest.None? then None else Some(p.value.0 + rest.value)
  }

  lemma EscapeMeans(r: nat)
    requires IsC1(r)
    ensures var e := Escape(r); e[0] == 0x5C && e[1] == 0x75 && Hex4(e[2], e[3], e[4], e[5]) == Some(r)
  {}

  /** A piece that starts a text starts any other that starts with it. */
  lemma PieceStays(s: Bytes, t: Bytes)
    requires s != [] && Piece(s).Some? && |t| >= Piece(s).value.1 && t[..Piece(s).value.1] == s[..Piece(s).value.1]
    ensures Piece(t) == Piece(s)
  {
    var n := Piece(s).value.1;
    forall i | 0 <= i < n ensures t[i] == s[i] { assert t[i] == t[..n][i] && s[i] == s[..n][i]; }
    if s[0] >= 0x80 { WholeStays(s, t); }
  }

  lemma {:induction false} AsciiStays(a: Bytes, t: Bytes)
    requires forall i | 0 <= i < |a| :: a[i] < 0x80
    ensures Escaped(a + t) == a + Escaped(t)
  {
    if a == [] {
      Nothing(t);
      Nothing(Escaped(t));
    } else {
      AsciiStays(a[1..], t);
      AsciiFirst(a[0], a[1..] + t);
      Regroup(a, t);
      Regroup(a, Escaped(t));
    }
  }

  lemma Nothing(t: Bytes)
    ensures [] + t == t
  {}

  lemma Regroup(a: Bytes, t: Bytes)
    requires a != []
    ensures a + t == [a[0]] + (a[1..] + t)
  {}

  lemma AsciiFirst(x: Byte, t: Bytes)
    requires x < 0x80
    ensures Escaped([x] + t) == [x] + Escaped(t)
  {
    EscapedIs([x] + t);
    assert ([x] + t)[1..] == t && ([x] + t)[..1] == [x];
  }

  /** A piece that is no C1 character is copied. */
  lemma PieceCopied(s: Bytes)
    requires s != [] && Piece(s).Some? && !(s[0] >= 0x80 && IsC1(Decode(s).0))
    ensures var n := Piece(s).value.1; Escaped(s) == s[..n] + Escaped(s[n..])
  {
    if s[0] < 0x80 {
      var n := Piece(s).value.1;
      forall i | 0 <= i < n ensures s[i] < 0x80 {}
      assert s == s[..n] + s[n..];
      AsciiStays(s[..n], s[n..]);
    } else {
      FirstStays(s);
    }
  }

  lemma UnitsStep(s: Bytes, n: nat, rest: Bytes)
    requires s != [] && Piece(s).Some? && Piece(s).value.1 == n && s[n..] == rest
    ensures Units(s) == if Units(rest).None? then None else Some(Piece(s).value.0 + Units(rest).value)
  {}

  /** Escaping keeps the value of every well-formed JSON string. */
  lemma {:induction false} KeepsStrings(s: Bytes)
    requires Units(s).Some?
    ensures Units(Escaped(s)) == Units(s)
    decreases |s|
  {
    if s != [] {
      var n := Piece(s).value.1;
      var rest := Escaped(s[n..]);
      UnitsStep(s, n, s[n..]);
      KeepsStrings(s[n..]);
      if s[0] >= 0x80 && IsC1(Decode(s).0) {
        var r := Decode(s).0;
        EscapeMeans(r);
        var e := Escape(r) + rest;
        assert Escaped(s) == e && e[6..] == rest;
        assert Piece(e) == Some(([r], 6));
        UnitsStep(e, 6, rest);
      } else {
        PieceCopied(s);
        var e := s[..n] + rest;
        assert e[..n] == s[..n] && e[n..] == rest;
        PieceStays(s, e);
        UnitsStep(e, n, rest);
      }
    }
  }

  // ---------------------------------------------------------------- documents

  /** A byte below 0x80 ends what comes before it. */
  lemma EndsBefore(a: Bytes, c: Byte, b: Bytes)
    requires a != [] && c < 0x80
    ensures Decode(a + [c] + b) == Decode(a)
  {
    var s := a + [c] + b;
    forall i | 0 <= i < |a| ensures s[i] == a[i] {}
    assert s[|a|] == c && !IsCont(s[|a|]);
  }

  /** Escaping splits at every byte below 0x80, whatever comes before it. */
  lemma {:induction false} SplitsAt(a: Bytes, c: Byte, b: Bytes)
    requires c < 0x80
    ensures Escaped(a + [c] + b) == Escaped(a) + [c] + Escaped(b)
    decreases |a|
  {
    if a == [] {
      Nothing([c] + b);
      AsciiFirst(c, b);
      assert a + [c] + b == [c] + b && Escaped(a) + [c] + Escaped(b) == [c] + Escaped(b);
    } else {
      EndsBefore(a, c, b);
      var s, n := a + [c] + b, Decode(a).1;
      assert s[n..] == a[n..] + [c] + b && s[..n] == a[..n];
      SplitsAt(a[n..], c, b);
      EscapedIs(s);
      EscapedIs(a);
      Rejoin(Rewrite(a), Escaped(a[n..]), [c], Escaped(b));
    }
  }

  lemma Rejoin(a: Bytes, b: Bytes, c: Bytes, d: Bytes)
    ensures a + (b + c + d) == (a + b) + c + d
  {}

  /** A string inside a document stays between its quotes and keeps its value; what
      comes before and after it is escaped on its own. */
  lemma StringsInside(before: Bytes, s: Bytes, after: Bytes)
    requires Units(s).Some?
    ensures Escaped(before + [0x22] + (s + [0x22] + after)) == Escaped(before) + [0x22] + (Escaped(s) + [0x22] + Escaped(after))
    ensures Units(Escaped(s)) == Units(s)
  {
    SplitsAt(before, 0x22, s + [0x22] + after);
    SplitsAt(s, 0x22, after);
    KeepsStrings(s);
  }
}
