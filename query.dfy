/** The pieces of JavaScript's `String.prototype.split` and of
    `URLSearchParams` (parse, `delete`, `size`, `toString`) that the relay
    handler uses on a request's query. Percent-encoding and the `+`-for-space
    rule are not modelled: names and values are kept as written. */
module QueryString {
  import opened Common

  /** One name/value pair of a `URLSearchParams` list. */
  datatype Param = Param(name: string, value: string)

  /** The parts of a `split` glued back with the separator between them. */
  function Join(parts: seq<string>, sep: char): string
    requires parts != []
  {
    if |parts| == 1 then parts[0] else parts[0] + [sep] + Join(parts[1..], sep)
  }

  /** `s.split(sep)` for a one-character separator: the maximal runs between
      separators, always at least one (possibly empty) part. */
  function Split(s: string, sep: char): (r: seq<string>)
    ensures r != []
    ensures forall i | 0 <= i < |r| :: sep !in r[i]
    ensures Join(r, sep) == s
    decreases |s|
  {
    if s == [] then [[]]
    else
      var rest := Split(s[1..], sep);
      if s[0] == sep then
        assert Join([[]] + rest, sep) == [sep] + Join(rest, sep) by {
          assert ([[]] + rest)[1..] == rest;
        }
        [[]] + rest
      else
        var r := [[s[0]] + rest[0]] + rest[1..];
        assert Join(r, sep) == [s[0]] + Join(rest, sep) by {
          if |rest| > 1 {
            assert r[1..] == rest[1..];
          }
        }
        r
  }

  /** Splitting undoes joining parts that do not contain the separator. */
  lemma {:induction false} SplitJoin(parts: seq<string>, sep: char)
    requires parts != []
    requires forall i | 0 <= i < |parts| :: sep !in parts[i]
    ensures Split(Join(parts, sep), sep) == parts
    decreases |parts|
  {
    if |parts| == 1 {
      SplitNoSep(parts[0], sep);
    } else {
      SplitJoin(parts[1..], sep);
      SplitAround(parts[0], Join(parts[1..], sep), sep);
      assert [parts[0]] + parts[1..] == parts;
    }
  }

  /** Text without the separator splits into itself. */
  lemma {:induction false} SplitNoSep(s: string, sep: char)
    requires sep !in s
    ensures Split(s, sep) == [s]
    decreases |s|
  {
    if s != [] {
      assert sep !in s[1..];
      SplitNoSep(s[1..], sep);
    }
  }

  /** A separator-free head followed by one separator starts a new part. */
  lemma {:induction false} SplitAround(a: string, b: string, sep: char)
    requires sep !in a
    ensures Split(a + [sep] + b, sep) == [a] + Split(b, sep)
    decreases |a|
  {
    if a == [] {
      assert a + [sep] + b == [sep] + b;
      assert ([sep] + b)[1..] == b;
    } else {
      assert (a + [sep] + b)[1..] == a[1..] + [sep] + b;
      assert sep !in a[1..];
      SplitAround(a[1..], b, sep);
      assert [a[0]] + a[1..] == a;
    }
  }

  /** The text before the first `c`, and what follows it when there is one. */
  function CutAt(s: string, c: char): (r: (string, Option<string>))
    ensures c !in r.0
    ensures r.1.None? <==> c !in s
    ensures r.1.None? ==> r.0 == s
    ensures r.1.Some? ==> r.0 + [c] + r.1.value == s
    decreases |s|
  {
    if s == [] then ([], None)
    else if s[0] == c then ([], Some(s[1..]))
    else
      var rest := CutAt(s[1..], c);
      ([s[0]] + rest.0, rest.1)
  }

  /** The first part of `split` is the text before the first separator. */
  lemma {:induction false} SplitHeadIsCut(s: string, c: char)
    ensures Split(s, c)[0] == CutAt(s, c).0
    ensures |Split(s, c)| > 1 <==> CutAt(s, c).1.Some?
    decreases |s|
  {
    if s != [] && s[0] != c {
      SplitHeadIsCut(s[1..], c);
    }
  }

  /** One `&`-separated piece of a query: a name up to the first `=`, the
      rest as value; without `=`, the whole piece names an empty value. */
  function ParsePiece(piece: string): (p: Param)
    ensures '=' !in p.name
    ensures '=' in piece ==> piece == p.name + "=" + p.value
    ensures '=' !in piece ==> p == Param(piece, "")
  {
    var cut := CutAt(piece, '=');
    if cut.1.Some? then Param(cut.0, cut.1.value) else Param(piece, "")
  }

  /** The pieces in order, skipping empty ones. */
  function ParsePieces(pieces: seq<string>): (r: seq<Param>)
    ensures |r| <= |pieces|
    decreases |pieces|
  {
    if pieces == [] then []
    else if pieces[0] == [] then ParsePieces(pieces[1..])
    else [ParsePiece(pieces[0])] + ParsePieces(pieces[1..])
  }

  /** `new URLSearchParams(query)`. */
  function Parse(query: string): seq<Param> {
    ParsePieces(Split(query, '&'))
  }

  /** What a list produced by parsing can hold: no `&` anywhere, no `=` in
      a name. */
  predicate Plain(ps: seq<Param>) {
    forall i | 0 <= i < |ps| :: '&' !in ps[i].name && '=' !in ps[i].name && '&' !in ps[i].value
  }

  /** One pair as `name=value`. */
  function PieceText(p: Param): string {
    p.name + "=" + p.value
  }

  /** `params.toString()`: the pairs as `name=value`, joined by `&`. */
  function Serialize(ps: seq<Param>): (r: string)
    ensures ps == [] <==> r == []
    decreases |ps|
  {
    if ps == [] then []
    else if |ps| == 1 then PieceText(ps[0])
    else PieceText(ps[0]) + "&" + Serialize(ps[1..])
  }

  /** Parsing produces plain pairs. */
  lemma {:induction false} ParsePiecesPlain(pieces: seq<string>)
    requires forall i | 0 <= i < |pieces| :: '&' !in pieces[i]
    ensures Plain(ParsePieces(pieces))
    decreases |pieces|
  {
    if pieces != [] {
      ParsePiecesPlain(pieces[1..]);
      if pieces[0] != [] {
        ParsePiecePlain(pieces[0]);
        var r := ParsePieces(pieces[1..]);
        assert ParsePieces(pieces) == [ParsePiece(pieces[0])] + r;
      }
    }
  }

  /** A piece without `&` parses to a pair without `&`. */
  lemma ParsePiecePlain(piece: string)
    requires '&' !in piece
    ensures var p := ParsePiece(piece);
            '&' !in p.name && '=' !in p.name && '&' !in p.value
  {
    var p := ParsePiece(piece);
    if '=' in piece {
      assert piece == p.name + "=" + p.value;
      assert forall k | 0 <= k < |p.name| :: p.name[k] == piece[k];
      assert forall k | 0 <= k < |p.value| :: p.value[k] == piece[|p.name| + 1 + k];
    }
  }

  lemma ParsePlain(query: string)
    ensures Plain(Parse(query))
  {
    ParsePiecesPlain(Split(query, '&'));
  }

  /** A serialized plain pair parses back to itself. */
  lemma ParsePieceText(p: Param)
    requires '=' !in p.name
    ensures ParsePiece(PieceText(p)) == p
    ensures PieceText(p) != []
  {
    var t := PieceText(p);
    assert t[|p.name|] == '=';
    var cut := CutAt(t, '=');
    assert cut.1.Some?;
    CutUnique(p.name, p.value, cut.0, cut.1.value, '=');
  }

  /** Text that has the separator has one first occurrence. */
  lemma {:induction false} CutUnique(a: string, b: string, a': string, b': string, c: char)
    requires c !in a && c !in a'
    requires a + [c] + b == a' + [c] + b'
    ensures a == a' && b == b'
    decreases |a|
  {
    if a != [] && a' != [] {
      assert a[0] == (a + [c] + b)[0] == a'[0];
      assert (a + [c] + b)[1..] == a[1..] + [c] + b;
      assert (a' + [c] + b')[1..] == a'[1..] + [c] + b';
      CutUnique(a[1..], b, a'[1..], b', c);
      assert a == [a[0]] + a[1..];
      assert a' == [a'[0]] + a'[1..];
    } else {
      // the first character is `c` on one side, so on both
      assert (a + [c] + b)[0] == (a' + [c] + b')[0];
      assert a == [] && a' == [];
      assert b == (a + [c] + b)[1..];
      assert b' == (a' + [c] + b')[1..];
    }
  }

  /** Parsing undoes serializing a plain list. */
  lemma {:induction false} ParseSerialize(ps: seq<Param>)
    requires Plain(ps)
    ensures Parse(Serialize(ps)) == ps
    decreases |ps|
  {
    if ps == [] {
      assert Split([], '&') == [[]];
    } else {
      ParsePieceText(ps[0]);
      assert '&' !in PieceText(ps[0]) by {
        assert forall k | 0 <= k < |ps[0].value| :: PieceText(ps[0])[|ps[0].name| + 1 + k] == ps[0].value[k];
      }
      if |ps| == 1 {
        SplitNoSep(PieceText(ps[0]), '&');
        assert ParsePieces([PieceText(ps[0])]) == [ParsePiece(PieceText(ps[0]))] + ParsePieces([]);
      } else {
        assert Plain(ps[1..]) by {
          forall i | 0 <= i < |ps[1..]| ensures '&' !in ps[1..][i].name && '=' !in ps[1..][i].name && '&' !in ps[1..][i].value {
            assert ps[1..][i] == ps[i + 1];
          }
        }
        ParseSerialize(ps[1..]);
        SplitAround(PieceText(ps[0]), Serialize(ps[1..]), '&');
        var pieces := [PieceText(ps[0])] + Split(Serialize(ps[1..]), '&');
        assert pieces[1..] == Split(Serialize(ps[1..]), '&');
        assert ParsePieces(pieces) == [ps[0]] + ps[1..];
      }
    }
  }

  /** `params.delete(name)`: every pair with that name is removed. */
  function Without(ps: seq<Param>, name: string): (r: seq<Param>)
    ensures |r| <= |ps|
    ensures forall i | 0 <= i < |r| :: r[i].name != name
    decreases |ps|
  {
    if ps == [] then []
    else (if ps[0].name == name then [] else [ps[0]]) + Without(ps[1..], name)
  }

  /** Every pair with another name is kept. */
  lemma {:induction false} WithoutKeeps(ps: seq<Param>, name: string, p: Param)
    requires p in ps && p.name != name
    ensures p in Without(ps, name)
    decreases |ps|
  {
    if ps[0] != p {
      assert p in ps[1..];
      WithoutKeeps(ps[1..], name, p);
    }
  }

  /** Removal works piecewise, so the kept pairs keep their relative order. */
  lemma {:induction false} WithoutAppend(a: seq<Param>, b: seq<Param>, name: string)
    ensures Without(a + b, name) == Without(a, name) + Without(b, name)
    decreases |a|
  {
    if a != [] {
      assert (a + b)[1..] == a[1..] + b;
      WithoutAppend(a[1..], b, name);
    } else {
      assert a + b == b;
    }
  }

  /** Removal of a name the list does not have changes nothing. */
  lemma {:induction false} WithoutAbsent(ps: seq<Param>, name: string)
    requires forall i | 0 <= i < |ps| :: ps[i].name != name
    ensures Without(ps, name) == ps
    decreases |ps|
  {
    if ps != [] {
      WithoutAbsent(ps[1..], name);
    }
  }

  /** A plain list stays plain when pairs are removed. */
  lemma {:induction false} WithoutPlain(ps: seq<Param>, name: string)
    requires Plain(ps)
    ensures Plain(Without(ps, name))
    decreases |ps|
  {
    if ps != [] {
      assert Plain(ps[1..]) by {
        forall i | 0 <= i < |ps[1..]| ensures '&' !in ps[1..][i].name && '=' !in ps[1..][i].name && '&' !in ps[1..][i].value {
          assert ps[1..][i] == ps[i + 1];
        }
      }
      WithoutPlain(ps[1..], name);
    }
  }

  /** Every parsed name is written out in the query it came from. */
  lemma ParsedNameOccurs(query: string, i: nat)
    requires i < |Parse(query)|
    ensures Contains(query, Parse(query)[i].name)
  {
    ParsePiecesNameOccurs(Split(query, '&'), i);
  }

  lemma {:induction false} ParsePiecesNameOccurs(pieces: seq<string>, i: nat)
    requires pieces != [] && i < |ParsePieces(pieces)|
    ensures Contains(Join(pieces, '&'), ParsePieces(pieces)[i].name)
    decreases |pieces|
  {
    var name := ParsePieces(pieces)[i].name;
    if pieces[0] != [] && i == 0 {
      FirstNameOccurs(pieces);
    } else {
      var j := if pieces[0] == [] then i else i - 1;
      assert ParsePieces(pieces[1..])[j].name == name;
      ParsePiecesNameOccurs(pieces[1..], j);
      ContainsSuffix(pieces[0] + "&", Join(pieces[1..], '&'), name);
      assert pieces[0] + "&" + Join(pieces[1..], '&') == Join(pieces, '&');
    }
  }

  /** The first piece's name starts the joined text. */
  lemma FirstNameOccurs(pieces: seq<string>)
    requires pieces != [] && pieces[0] != []
    ensures StartsWith(Join(pieces, '&'), ParsePiece(pieces[0]).name)
  {
    var p := ParsePiece(pieces[0]);
    var text := Join(pieces, '&');
    assert pieces[0][..|p.name|] == p.name;
    assert text[..|pieces[0]|] == pieces[0];
    assert text[..|p.name|] == pieces[0][..|p.name|];
  }
}
