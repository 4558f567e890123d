/**
 * The Roles field of a user: the view model holds a list of role names, the
 * stored entity a single semicolon-delimited string. Mapping a view to an entity
 * joins the list with ";"; mapping an entity to a view splits the string on ";"
 * and drops the empty pieces.
 */
module RolesMapping {

  const Separator: char := ';'

  /** A role that survives the round trip: non-empty and free of the separator. */
  predicate ValidRole(role: string) {
    role != "" && Separator !in role
  }

  /** string.Join(";", roles): the roles in order, with ";" between neighbours. */
  function Join(roles: seq<string>): (r: string)
    ensures roles == [] ==> r == ""
    ensures |roles| > 0 ==> roles[0] <= r
    ensures forall i :: 0 <= i < |roles| ==> |roles[i]| <= |r|
    decreases |roles|
  {
    if |roles| == 0 then ""
    else if |roles| == 1 then roles[0]
    else roles[0] + [Separator] + Join(roles[1..])
  }

  /** s.Split(";"): all pieces between separators, empty ones included. */
  function Segments(s: string): (r: seq<string>)
    ensures |r| >= 1
    ensures forall i :: 0 <= i < |r| ==> Separator !in r[i]
    decreases |s|
  {
    if |s| == 0 then [""]
    else
      var rest := Segments(s[1..]);
      if s[0] == Separator then [""] + rest else [[s[0]] + rest[0]] + rest[1..]
  }

  /** The pieces that are not empty, in order (StringSplitOptions.RemoveEmptyEntries). */
  function NonEmpty(pieces: seq<string>): (r: seq<string>)
    ensures |r| <= |pieces|
    ensures forall i :: 0 <= i < |r| ==> r[i] != "" && r[i] in pieces
    ensures forall p :: p in pieces && p != "" ==> p in r
    decreases |pieces|
  {
    if pieces == [] then []
    else if pieces[0] == "" then NonEmpty(pieces[1..])
    else [pieces[0]] + NonEmpty(pieces[1..])
  }

  /** s.Split(";", StringSplitOptions.RemoveEmptyEntries): the role list read back from the entity. */
  function Split(s: string): (r: seq<string>)
    ensures forall i :: 0 <= i < |r| ==> ValidRole(r[i])
    ensures forall p :: p in Segments(s) && p != "" ==> p in r
  {
    NonEmpty(Segments(s))
  }

  // ---------------------------------------------------------------------------
  // Lemmas

  /** Splitting loses nothing but separators: joining the pieces of s gives s back. */
  lemma {:induction false} JoinSegments(s: string)
    ensures Join(Segments(s)) == s
    decreases |s|
  {
    if |s| > 0 {
      var rest := Segments(s[1..]);
      JoinSegments(s[1..]);
      if s[0] == Separator {
        assert Segments(s) == [""] + rest;
        assert Join(Segments(s)) == "" + [Separator] + Join(rest);
        assert s == [s[0]] + s[1..];
      } else if |rest| == 1 {
        assert Join(Segments(s)) == [s[0]] + rest[0];
        assert s == [s[0]] + s[1..];
      } else {
        assert Join(Segments(s)) == [s[0]] + rest[0] + [Separator] + Join(rest[1..]);
        assert Join(rest) == rest[0] + [Separator] + Join(rest[1..]);
        assert s == [s[0]] + s[1..];
      }
    }
  }

  /** A piece without separators followed by ";" and more text splits off as the first piece. */
  lemma {:induction false} SegmentsAfterPiece(piece: string, rest: string)
    requires Separator !in piece
    ensures Segments(piece + [Separator] + rest) == [piece] + Segments(rest)
    decreases |piece|
  {
    if piece == [] {
      assert piece + [Separator] + rest == [Separator] + rest;
      assert ([Separator] + rest)[1..] == rest;
    } else {
      SegmentsAfterPiece(piece[1..], rest);
      assert (piece + [Separator] + rest)[1..] == piece[1..] + [Separator] + rest;
      assert [piece[0]] + piece[1..] == piece;
    }
  }

  /** Text without separators is a single piece. */
  lemma {:induction false} SegmentsOfPiece(piece: string)
    requires Separator !in piece
    ensures Segments(piece) == [piece]
    decreases |piece|
  {
    if piece != [] {
      SegmentsOfPiece(piece[1..]);
      assert [piece[0]] + piece[1..] == piece;
    }
  }

  /** Joining roles free of separators and splitting with empty pieces kept gives back the roles (for a non-empty list). */
  lemma {:induction false} SegmentsOfJoin(roles: seq<string>)
    requires |roles| >= 1
    requires forall i :: 0 <= i < |roles| ==> Separator !in roles[i]
    ensures Segments(Join(roles)) == roles
    decreases |roles|
  {
    if |roles| == 1 {
      SegmentsOfPiece(roles[0]);
    } else {
      SegmentsOfJoin(roles[1..]);
      SegmentsAfterPiece(roles[0], Join(roles[1..]));
    }
  }

  /** Dropping empty pieces from a list that has none changes nothing. */
  lemma {:induction false} NonEmptyOfNonEmpty(pieces: seq<string>)
    requires forall i :: 0 <= i < |pieces| ==> pieces[i] != ""
    ensures NonEmpty(pieces) == pieces
    decreases |pieces|
  {
    if pieces != [] {
      NonEmptyOfNonEmpty(pieces[1..]);
    }
  }

  /** A single piece is kept exactly when it is non-empty. */
  lemma NonEmptyOfOne(p: string)
    ensures NonEmpty([p]) == if p == "" then [] else [p]
  {
    assert [p][1..] == [];
  }

  /**
   * Dropping empty pieces works piece by piece and keeps the order: the result
   * for a concatenation is the concatenation of the results.
   */
  lemma {:induction false} NonEmptyAppend(a: seq<string>, b: seq<string>)
    ensures NonEmpty(a + b) == NonEmpty(a) + NonEmpty(b)
    decreases |a|
  {
    if a == [] {
      assert a + b == b;
    } else {
      NonEmptyAppend(a[1..], b);
      assert (a + b)[0] == a[0] && (a + b)[1..] == a[1..] + b;
    }
  }

  /**
   * The round trip: roles that are non-empty and free of ";" are read back
   * exactly, in the same order, after being stored as one string.
   */
  lemma RoundTrip(roles: seq<string>)
    requires forall i :: 0 <= i < |roles| ==> ValidRole(roles[i])
    ensures Split(Join(roles)) == roles
  {
    if roles != [] {
      SegmentsOfJoin(roles);
      NonEmptyOfNonEmpty(roles);
    }
  }

  /** No roles are stored as the empty string, which reads back as no roles. */
  lemma EmptyRoles()
    ensures Join([]) == ""
    ensures Split("") == []
  {
  }

  /** Reading back is a normalisation: storing what was read and reading it again changes nothing. */
  lemma SplitIdempotent(s: string)
    ensures Split(Join(Split(s))) == Split(s)
  {
    RoundTrip(Split(s));
  }

  /** Empty pieces disappear: "a;;b;" reads back as ["a", "b"]. */
  lemma SplitDropsEmptyPieces(s: string)
    requires s == "a;;b;"
    ensures Split(s) == ["a", "b"]
  {
    assert s == "a" + [Separator] + ("" + [Separator] + ("b" + [Separator] + ""));
    SegmentsAfterPiece("b", "");
    SegmentsAfterPiece("", "b" + [Separator] + "");
    SegmentsAfterPiece("a", "" + [Separator] + ("b" + [Separator] + ""));
    var pieces := ["a", "", "b", ""];
    assert Segments(s) == pieces;
    assert pieces[1..][1..][1..] == [""];
    assert NonEmpty(pieces[1..][1..]) == ["b"];
    assert NonEmpty(pieces) == ["a"] + NonEmpty(pieces[1..][1..]);
  }
}
