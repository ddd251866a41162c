/** The subscription/tenant ID pattern used by the command-line front end
    (an optional opening brace, hex groups of 8, 4, 4, 4 and 12 separated by
    hyphens, an optional closing brace, anchored at both ends), read as a
    sequence of pieces and matched by a small interpreter of that fragment
    of Go's regexp syntax (literal characters, the hex class, `{n}` and
    `{0,1}`). `BracedUuidText` is an independent, positional description of
    the same language: the 8-4-4-4-12 layout of a UUID string (section 3 of
    RFC 4122, with no version or variant check), each brace optional on its
    own. */
module IdPattern {

  /** One character position of a pattern. */
  datatype Atom = Char(c: char) | HexDigit

  /** `atom{n}` or `atom{0,1}` */
  datatype Piece = Exactly(atom: Atom, n: nat) | Optional(atom: Atom)

  type Pattern = seq<Piece>

  /** `[0-9a-fA-F]` */
  predicate IsHex(c: char)
  {
    ('0' <= c <= '9') || ('a' <= c <= 'f') || ('A' <= c <= 'F')
  }

  predicate AtomMatches(a: Atom, c: char)
  {
    match a
    case Char(x) => c == x
    case HexDigit => IsHex(c)
  }

  /** Does `p` match the whole of `s` (the pattern is anchored by `^` and `$`)?
      An optional piece may match one character or none. */
  function Matches(p: Pattern, s: string): bool
    decreases |s|, |p|
  {
    if p == [] then s == []
    else match p[0]
      case Exactly(a, n) =>
        if n == 0 then Matches(p[1..], s)
        else |s| > 0 && AtomMatches(a, s[0]) && Matches([Exactly(a, n - 1)] + p[1..], s[1..])
      case Optional(a) =>
        (|s| > 0 && AtomMatches(a, s[0]) && Matches(p[1..], s[1..])) || Matches(p[1..], s)
  }

  /** The pattern of pkg/utils/validateinput.go, pkg/utils/subscription.go and
      internal/pkg/azure/subscriptions/subscription.go, piece by piece. */
  const UuidPattern: Pattern := [
    Optional(Char('{')),
    Exactly(HexDigit, 8), Exactly(Char('-'), 1),
    Exactly(HexDigit, 4), Exactly(Char('-'), 1),
    Exactly(HexDigit, 4), Exactly(Char('-'), 1),
    Exactly(HexDigit, 4), Exactly(Char('-'), 1),
    Exactly(HexDigit, 12),
    Optional(Char('}'))
  ]

  /** Positions of the four hyphens in the 36-character form. */
  predicate IsHyphenPosition(i: int)
  {
    i == 8 || i == 13 || i == 18 || i == 23
  }

  /** The 36-character 8-4-4-4-12 hexadecimal form, hex digits in either case. */
  predicate UuidText(t: string)
  {
    && |t| == 36
    && forall i | 0 <= i < 36 :: if IsHyphenPosition(i) then t[i] == '-' else IsHex(t[i])
  }

  /** `UuidText`, optionally preceded by `{` and optionally followed by `}`. */
  predicate BracedUuidText(s: string)
  {
    || UuidText(s)
    || (|s| == 37 && s[0] == '{' && UuidText(s[1..]))
    || (|s| == 37 && s[36] == '}' && UuidText(s[..36]))
    || (|s| == 38 && s[0] == '{' && s[37] == '}' && UuidText(s[1..37]))
  }

  /* ---------- fixed-width patterns ---------- */

  /** A pattern without optional pieces: it matches strings of one width. */
  predicate Fixed(p: Pattern)
  {
    forall k | 0 <= k < |p| :: p[k].Exactly?
  }

  function Repeat(a: Atom, n: nat): (r: seq<Atom>)
    ensures |r| == n && forall i | 0 <= i < n :: r[i] == a
  {
    if n == 0 then [] else [a] + Repeat(a, n - 1)
  }

  /** The atom each character position of a fixed pattern must match. */
  function Expand(p: Pattern): seq<Atom>
    requires Fixed(p)
  {
    if p == [] then [] else Repeat(p[0].atom, p[0].n) + Expand(p[1..])
  }

  predicate AtomsMatch(atoms: seq<Atom>, s: string)
  {
    |atoms| == |s| && forall i | 0 <= i < |s| :: AtomMatches(atoms[i], s[i])
  }

  /** `atom{n}` followed by `q` matches `s` exactly when the first n
      characters match the atom and `q` matches the rest. */
  lemma {:induction false} ExactlyMatches(a: Atom, n: nat, q: Pattern, s: string)
    ensures Matches([Exactly(a, n)] + q, s)
        <==> n <= |s| && AtomsMatch(Repeat(a, n), s[..n]) && Matches(q, s[n..])
    decreases n
  {
    var p := [Exactly(a, n)] + q;
    assert p[1..] == q;
    if n == 0 {
      assert s[..0] == [] && s[0..] == s;
    } else if |s| == 0 {
    } else {
      ExactlyMatches(a, n - 1, q, s[1..]);
      if n <= |s| {
        assert s[1..][n - 1..] == s[n..];
        assert s[1..][..n - 1] == s[1..n];
        var r := Repeat(a, n);
        assert AtomsMatch(r, s[..n]) <==> AtomMatches(a, s[0]) && AtomsMatch(Repeat(a, n - 1), s[1..n]) by {
          if AtomMatches(a, s[0]) && AtomsMatch(Repeat(a, n - 1), s[1..n]) {
            forall i | 0 <= i < n ensures AtomMatches(r[i], s[..n][i]) {
              if i > 0 {
                assert s[..n][i] == s[1..n][i - 1];
              }
            }
          }
        }
      }
    }
  }

  lemma AtomsMatchAppend(x: seq<Atom>, y: seq<Atom>, s: string)
    requires |x| + |y| <= |s|
    ensures AtomsMatch(x + y, s[..|x| + |y|])
        <==> AtomsMatch(x, s[..|x|]) && AtomsMatch(y, s[|x|..|x| + |y|])
  {
    var u := s[..|x| + |y|];
    if AtomsMatch(x, s[..|x|]) && AtomsMatch(y, s[|x|..|x| + |y|]) {
      forall i | 0 <= i < |u| ensures AtomMatches((x + y)[i], u[i]) {
        if i >= |x| {
          assert u[i] == s[|x|..|x| + |y|][i - |x|];
        }
      }
    }
    if AtomsMatch(x + y, u) {
      forall i | 0 <= i < |y| ensures AtomMatches(y[i], s[|x|..|x| + |y|][i]) {
        assert (x + y)[|x| + i] == y[i];
      }
    }
  }

  /** A fixed pattern followed by `q` matches `s` exactly when the first
      characters match the expansion position by position and `q` matches
      the rest. */
  lemma {:induction false} FixedMatches(p: Pattern, q: Pattern, s: string)
    requires Fixed(p)
    ensures var w := |Expand(p)|;
      Matches(p + q, s) <==> w <= |s| && AtomsMatch(Expand(p), s[..w]) && Matches(q, s[w..])
  {
    if p == [] {
      assert p + q == q;
      assert s[..0] == [] && s[0..] == s;
    } else {
      var a, n := p[0].atom, p[0].n;
      var rest := p[1..];
      assert Fixed(rest);
      assert p + q == [Exactly(a, n)] + (rest + q);
      ExactlyMatches(a, n, rest + q, s);
      if n <= |s| {
        FixedMatches(rest, q, s[n..]);
        var w' := |Expand(rest)|;
        if n + w' <= |s| {
          assert s[n..][w'..] == s[n + w'..];
          assert s[n..][..w'] == s[n..n + w'];
          AtomsMatchAppend(Repeat(a, n), Expand(rest), s);
          assert s[..n + w'][..n] == s[..n];
        }
      }
    }
  }

  /* ---------- the UUID pattern ---------- */

  const UuidBody: Pattern := UuidPattern[1..10]

  /** `atom{n}-` followed by `e`, position by position. */
  lemma GroupAt(n: nat, e: seq<Atom>, i: int)
    requires 0 <= i < n + 1 + |e|
    ensures (Repeat(HexDigit, n) + [Char('-')] + e)[i]
         == if i < n then HexDigit else if i == n then Char('-') else e[i - n - 1]
  {
  }

  /** Expanding `atom{n}` followed by a fixed pattern `q`. */
  lemma ExpandCons(a: Atom, n: nat, q: Pattern)
    requires Fixed(q)
    ensures Fixed([Exactly(a, n)] + q)
    ensures Expand([Exactly(a, n)] + q) == Repeat(a, n) + Expand(q)
  {
    assert ([Exactly(a, n)] + q)[1..] == q;
  }

  lemma UuidBodyLayout()
    ensures Fixed(UuidBody)
    ensures |Expand(UuidBody)| == 36
    ensures forall i | 0 <= i < 36 ::
      Expand(UuidBody)[i] == if IsHyphenPosition(i) then Char('-') else HexDigit
  {
    var h, d := HexDigit, Char('-');
    var g4 := [Exactly(h, 12)];
    var g3 := [Exactly(h, 4), Exactly(d, 1)] + g4;
    var g2 := [Exactly(h, 4), Exactly(d, 1)] + g3;
    var g1 := [Exactly(h, 4), Exactly(d, 1)] + g2;
    var g0 := [Exactly(h, 8), Exactly(d, 1)] + g1;
    assert UuidBody == g0;
    var e4 := Expand(g4);
    ExpandCons(h, 12, []);
    assert g4 == [Exactly(h, 12)] + [];
    assert e4 == Repeat(h, 12);
    var e3 := ExpandGroup(4, g4);
    var e2 := ExpandGroup(4, g3);
    var e1 := ExpandGroup(4, g2);
    var e0 := ExpandGroup(8, g1);
    forall i | 0 <= i < 36
      ensures e0[i] == if IsHyphenPosition(i) then d else h
    {
      GroupAt(8, e1, i);
      if i > 8 {
        GroupAt(4, e2, i - 9);
        if i > 13 {
          GroupAt(4, e3, i - 14);
          if i > 18 {
            GroupAt(4, e4, i - 19);
          }
        }
      }
    }
  }

  /** Expanding `[0-9a-fA-F]{n}-` followed by a fixed pattern `q`. */
  lemma ExpandGroup(n: nat, q: Pattern) returns (e: seq<Atom>)
    requires Fixed(q)
    ensures Fixed([Exactly(HexDigit, n), Exactly(Char('-'), 1)] + q)
    ensures e == Expand([Exactly(HexDigit, n), Exactly(Char('-'), 1)] + q)
    ensures e == Repeat(HexDigit, n) + [Char('-')] + Expand(q)
  {
    ExpandCons(Char('-'), 1, q);
    var q' := [Exactly(Char('-'), 1)] + q;
    ExpandCons(HexDigit, n, q');
    assert [Exactly(HexDigit, n), Exactly(Char('-'), 1)] + q == [Exactly(HexDigit, n)] + q';
    e := Expand([Exactly(HexDigit, n)] + q');
  }

  /** The closing `\}{0,1}$`. */
  lemma ClosingBraceMatches(v: string)
    ensures Matches([Optional(Char('}'))], v) <==> v == [] || v == ['}']
  {
    assert [Optional(Char('}'))][1..] == [];
  }

  lemma UuidTextIffAtoms(u: string)
    requires |u| == 36
    ensures AtomsMatch(Expand(UuidBody), u) <==> UuidText(u)
  {
    UuidBodyLayout();
  }

  /** Everything after the optional opening brace. */
  lemma {:induction false} AfterOpeningBrace(u: string)
    ensures Matches(UuidPattern[1..], u)
        <==> UuidText(u) || (|u| == 37 && u[36] == '}' && UuidText(u[..36]))
  {
    UuidBodyLayout();
    assert UuidPattern[1..] == UuidBody + [Optional(Char('}'))];
    FixedMatches(UuidBody, [Optional(Char('}'))], u);
    ClosingBraceMatches(if 36 <= |u| then u[36..] else []);
    if 36 <= |u| {
      UuidTextIffAtoms(u[..36]);
      if |u| == 36 {
        assert u[..36] == u;
      }
    }
  }

  /** The regular expression accepts exactly the optionally braced
      8-4-4-4-12 hexadecimal layout. */
  lemma {:induction false} PatternIffLayout(s: string)
    ensures Matches(UuidPattern, s) <==> BracedUuidText(s)
  {
    assert UuidPattern == [Optional(Char('{'))] + UuidPattern[1..];
    assert UuidPattern[1..] == ([Optional(Char('{'))] + UuidPattern[1..])[1..];
    AfterOpeningBrace(s);
    if |s| > 0 {
      AfterOpeningBrace(s[1..]);
      if |s| == 38 {
        assert s[1..][..36] == s[1..37];
      }
      if |s| == 37 {
        assert s[1..][..36] == s[1..37];
      }
    }
    if |s| > 0 && s[0] == '{' {
      assert !UuidText(s) by { assert !IsHex(s[0]); }
      if |s| == 37 {
        assert !UuidText(s[..36]) by { assert s[..36][0] == '{'; }
      }
    }
  }
}
