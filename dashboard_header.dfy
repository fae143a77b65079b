/** The avatar initials of the warrior dashboard header
    (src/components/dashboard/DashboardHeader.tsx): the name is split on
    single spaces and the first character of every piece is kept. A piece
    left empty by a leading, trailing or doubled space has no first
    character; `join` renders that undefined as nothing. */
module DashboardHeader {
  import opened JsStrings

  /** `n[0]` as `join` renders it. */
  function FirstChar(piece: string): (r: string)
    ensures piece == "" ==> r == ""
    ensures piece != "" ==> r == [piece[0]]
  {
    if piece == "" then "" else [piece[0]]
  }

  /** `pieces.map(n => n[0]).join("")` */
  function InitialsOf(pieces: seq<string>): string
    decreases |pieces|
  {
    if pieces == [] then "" else FirstChar(pieces[0]) + InitialsOf(pieces[1..])
  }

  /** The initials shown for a name. */
  function Initials(name: string): (r: string)
    ensures |r| == |NonEmptyPieces(Split(name, ' '))| <= |Split(name, ' ')|
  {
    InitialsAreFirstChars(Split(name, ' '));
    InitialsOf(Split(name, ' '))
  }

  /** The pieces that have a first character, in order. */
  function NonEmptyPieces(pieces: seq<string>): (r: seq<string>)
    ensures |r| <= |pieces|
    ensures forall i :: 0 <= i < |r| ==> r[i] != "" && r[i] in pieces
    decreases |pieces|
  {
    if pieces == [] then []
    else if pieces[0] == "" then NonEmptyPieces(pieces[1..])
    else [pieces[0]] + NonEmptyPieces(pieces[1..])
  }

  /** The initials are the first characters of the non-empty pieces, one
      each, in order; so there are as many initials as non-empty pieces, and
      never more than pieces. */
  lemma {:induction false} InitialsAreFirstChars(pieces: seq<string>)
    ensures var ne := NonEmptyPieces(pieces);
      |InitialsOf(pieces)| == |ne| <= |pieces| &&
      forall i :: 0 <= i < |ne| ==> InitialsOf(pieces)[i] == ne[i][0]
    decreases |pieces|
  {
    if pieces != [] {
      InitialsAreFirstChars(pieces[1..]);
      var ne := NonEmptyPieces(pieces);
      var rest := InitialsOf(pieces[1..]);
      if pieces[0] != "" {
        assert InitialsOf(pieces) == [pieces[0][0]] + rest;
        assert ne == [pieces[0]] + NonEmptyPieces(pieces[1..]);
      } else {
        assert InitialsOf(pieces) == rest;
      }
    }
  }

  /** No initial is a space: the pieces of a split on " " hold none. */
  lemma InitialsHaveNoSpace(name: string)
    ensures ' ' !in Initials(name)
  {
    var pieces := Split(name, ' ');
    InitialsAreFirstChars(pieces);
    var ne := NonEmptyPieces(pieces);
    forall i | 0 <= i < |ne|
      ensures ne[i][0] != ' '
    {
      assert ne[i] in pieces;
      assert ' ' !in ne[i];
    }
  }

  /** Two words separated by one space give their two first letters. */
  lemma TwoWordInitials(first: string, last: string)
    requires first != "" && last != "" && ' ' !in first && ' ' !in last
    ensures Initials(first + " " + last) == [first[0], last[0]]
  {
    SplitsInto([first, last], first + " " + last);
    assert [first, last][1..] == [last];
    assert InitialsOf([last]) == [last[0]];
  }

  /** Extra spaces add nothing: a leading, a doubled and a trailing space
      give the same initials as a single separating one. */
  lemma ExtraSpacesAddNothing(first: string, last: string)
    requires first != "" && last != "" && ' ' !in first && ' ' !in last
    ensures Initials(" " + first + "  " + last + " ") == Initials(first + " " + last)
  {
    var padded := ["", first, "", last, ""];
    PaddedJoin(first, last);
    SplitsInto(padded, " " + first + "  " + last + " ");
    PaddedInitials(first, last);
    TwoWordInitials(first, last);
  }

  lemma PaddedJoin(first: string, last: string)
    ensures Join(["", first, "", last, ""], " ") == " " + first + "  " + last + " "
  {
    assert Join([""], " ") == "";
    JoinCons(last, [""], " ");
    assert [last] + [""] == [last, ""];
    JoinCons("", [last, ""], " ");
    assert [""] + [last, ""] == ["", last, ""];
    JoinCons(first, ["", last, ""], " ");
    assert [first] + ["", last, ""] == [first, "", last, ""];
    JoinCons("", [first, "", last, ""], " ");
    assert [""] + [first, "", last, ""] == ["", first, "", last, ""];
  }

  lemma PaddedInitials(first: string, last: string)
    requires first != "" && last != ""
    ensures InitialsOf(["", first, "", last, ""]) == [first[0], last[0]]
  {
    var padded := ["", first, "", last, ""];
    assert padded[1..] == [first, "", last, ""];
    assert padded[1..][1..] == ["", last, ""];
    assert padded[1..][1..][1..] == [last, ""];
    assert padded[1..][1..][1..][1..] == [""];
    assert InitialsOf([""]) == "";
    assert InitialsOf([last, ""]) == [last[0]];
    assert InitialsOf(["", last, ""]) == [last[0]];
    assert InitialsOf([first, "", last, ""]) == [first[0], last[0]];
  }

  /** A space-free list of pieces joined by single spaces splits back into
      them. */
  lemma SplitsInto(pieces: seq<string>, name: string)
    requires |pieces| >= 1 && forall i :: 0 <= i < |pieces| ==> ' ' !in pieces[i]
    requires name == Join(pieces, " ")
    ensures Split(name, ' ') == pieces
  {
    SplitJoin(pieces, ' ');
  }

  /** The bundled warrior "Arjun Singh" shows "AS". */
  lemma BundledWarriorInitials()
    ensures Initials("Arjun Singh") == "AS"
  {
    assert "Arjun Singh" == "Arjun" + " " + "Singh";
    TwoWordInitials("Arjun", "Singh");
  }
}
