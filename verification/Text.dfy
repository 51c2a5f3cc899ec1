/** Strings as the gateway and the browser cut them: lines, parameters, prefixes. */
module Text {

  predicate IsSpace(c: char) {
    c == ' ' || ('\t' <= c <= '\r')
  }

  function TrimLeft(s: string): string {
    if s != "" && IsSpace(s[0]) then TrimLeft(s[1..]) else s
  }

  function TrimRight(s: string): string {
    if s != "" && IsSpace(s[|s| - 1]) then TrimRight(s[..|s| - 1]) else s
  }

  /** strings.TrimSpace, on ASCII white space. */
  function Trim(s: string): string {
    TrimRight(TrimLeft(s))
  }

  /** Spaces, tabs, line feeds, vertical tabs, form feeds and carriage returns only. */
  predicate Blank(s: string) {
    forall i :: 0 <= i < |s| ==> s[i] in {' ', '\t', '\n', '\U{000B}', '\U{000C}', '\r'}
  }

  predicate Trimmed(s: string) {
    s == "" || (!Blank(s[..1]) && !Blank(s[|s| - 1..]))
  }

  lemma SpacesAreBlank(s: string, i: nat)
    requires i < |s|
    ensures IsSpace(s[i]) <==> Blank(s[i..][..1])
    ensures IsSpace(s[i]) <==> Blank([s[i]])
  {
    assert s[i..][..1] == [s[i]] && [s[i]][0] == s[i];
  }

  lemma {:induction false} TrimLeftOf(blanks: string, s: string)
    requires Blank(blanks) && (s == "" || !IsSpace(s[0]))
    ensures TrimLeft(blanks + s) == s
  {
    if blanks == "" {
      assert blanks + s == s;
    } else {
      assert (blanks + s)[1..] == blanks[1..] + s;
      TrimLeftOf(blanks[1..], s);
    }
  }

  lemma {:induction false} TrimRightOf(s: string, blanks: string)
    requires Blank(blanks) && (s == "" || !IsSpace(s[|s| - 1]))
    ensures TrimRight(s + blanks) == s
  {
    if blanks == "" {
      assert s + blanks == s;
    } else {
      var n := |blanks| - 1;
      assert (s + blanks)[..|s| + n] == s + blanks[..n];
      TrimRightOf(s, blanks[..n]);
    }
  }

  lemma TrimmedEnds(s: string)
    requires s != ""
    ensures Trimmed(s) <==> !IsSpace(s[0]) && !IsSpace(s[|s| - 1])
  {
    SpacesAreBlank(s, 0);
    SpacesAreBlank(s, |s| - 1);
    assert s[..1] == [s[0]] && s[|s| - 1..] == [s[|s| - 1]];
  }

  /** Trimming takes the blanks at both ends and nothing else. */
  lemma TrimOf(left: string, s: string, right: string)
    requires Blank(left) && Trimmed(s) && Blank(right)
    ensures Trim(left + s + right) == s
  {
    if s == "" {
      assert left + s + right == (left + right) + "";
      TrimLeftOf(left + right, "");
    } else {
      TrimmedEnds(s);
      assert left + s + right == left + (s + right);
      TrimLeftOf(left, s + right);
      TrimRightOf(s, right);
    }
  }

  lemma {:induction false} TrimLeftTakes(s: string) returns (left: string)
    ensures Blank(left) && s == left + TrimLeft(s)
    ensures TrimLeft(s) != "" ==> !IsSpace(TrimLeft(s)[0])
  {
    if s != "" && IsSpace(s[0]) {
      var rest := TrimLeftTakes(s[1..]);
      left := [s[0]] + rest;
    } else {
      left := "";
    }
  }

  lemma {:induction false} TrimRightTakes(s: string) returns (right: string)
    ensures Blank(right) && s == TrimRight(s) + right
    ensures TrimRight(s) != "" ==> !IsSpace(TrimRight(s)[|TrimRight(s)| - 1]) && TrimRight(s)[0] == s[0]
  {
    if s != "" && IsSpace(s[|s| - 1]) {
      var rest := TrimRightTakes(s[..|s| - 1]);
      right := rest + [s[|s| - 1]];
    } else {
      right := "";
    }
  }

  /** Every text is what trimming leaves of it, between blanks. */
  lemma TrimTakes(s: string) returns (left: string, right: string)
    ensures Blank(left) && Trimmed(Trim(s)) && Blank(right) && s == left + Trim(s) + right
  {
    left := TrimLeftTakes(s);
    right := TrimRightTakes(TrimLeft(s));
    assert left + Trim(s) + right == left + (Trim(s) + right);
    if Trim(s) != "" { TrimmedEnds(Trim(s)); }
  }

  lemma ContainsExactly(s: string, part: string)
    ensures Contains(s, part) <==> exists before, after :: s == before + part + after
  {
    if Contains(s, part) {
      var i :| 0 <= i <= |s| - |part| && s[i..][..|part|] == part;
      assert s == s[..i] + part + s[i + |part|..];
    }
    if before, after :| s == before + part + after {
      assert s[|before|..][..|part|] == part;
    }
  }

  /** strings.Contains. */
  predicate Contains(s: string, part: string) {
    exists i :: 0 <= i <= |s| - |part| && s[i..][..|part|] == part
  }

  /** strings.Split: the pieces between separators, always at least one. */
  function Split(s: string, sep: char): (pieces: seq<string>)
    ensures pieces != []
  {
    if s == "" then [""]
    else if s[0] == sep then [""] + Split(s[1..], sep)
    else Prepend(s[0], Split(s[1..], sep))
  }

  /** The pieces with one character more at the front of the first. */
  function Prepend(c: char, pieces: seq<string>): (longer: seq<string>)
    requires pieces != []
    ensures longer != []
  {
    [[c] + pieces[0]] + pieces[1..]
  }

  /** strings.Join. */
  function Join(pieces: seq<string>, sep: char): string {
    if pieces == [] then ""
    else if |pieces| == 1 then pieces[0]
    else pieces[0] + [sep] + Join(pieces[1..], sep)
  }

  function Last(pieces: seq<string>): string
    requires pieces != []
  {
    pieces[|pieces| - 1]
  }

  function AllButLast(pieces: seq<string>): seq<string>
    requires pieces != []
  {
    pieces[..|pieces| - 1]
  }

  lemma LastOnTheRight(pieces: seq<string>)
    requires pieces != []
    ensures AllButLast(pieces) + [Last(pieces)] == pieces
  {
  }

  lemma JoinOfPrepend(c: char, pieces: seq<string>, sep: char)
    requires pieces != []
    ensures Join(Prepend(c, pieces), sep) == [c] + Join(pieces, sep)
  {
    if |pieces| > 1 {
      var rest := Join(pieces[1..], sep);
      assert Prepend(c, pieces)[1..] == pieces[1..];
      assert [c] + pieces[0] + [sep] + rest == [c] + (pieces[0] + [sep] + rest);
    }
  }

  lemma {:induction false} JoinOfSplit(s: string, sep: char)
    ensures Join(Split(s, sep), sep) == s
  {
    if s != "" {
      var rest := Split(s[1..], sep);
      JoinOfSplit(s[1..], sep);
      if s[0] == sep {
        assert ([""] + rest)[1..] == rest;
      } else {
        JoinOfPrepend(s[0], rest, sep);
      }
    }
  }

  lemma {:induction false} PiecesHaveNoSeparator(s: string, sep: char)
    ensures forall i :: 0 <= i < |Split(s, sep)| ==> sep !in Split(s, sep)[i]
  {
    if s != "" {
      PiecesHaveNoSeparator(s[1..], sep);
    }
  }

  lemma {:induction false} SplitOfPiece(piece: string, sep: char)
    requires sep !in piece
    ensures Split(piece, sep) == [piece]
  {
    if piece != "" {
      SplitOfPiece(piece[1..], sep);
      assert [piece[0]] + piece[1..] == piece;
    }
  }

  /** Splitting where a separator stands is splitting both sides. */
  lemma {:induction false} SplitAtSeparator(a: string, b: string, sep: char)
    ensures Split(a + [sep] + b, sep) == Split(a, sep) + Split(b, sep)
  {
    var whole := a + [sep] + b;
    if a == "" {
      assert whole[1..] == b;
    } else {
      assert whole[1..] == a[1..] + [sep] + b;
      SplitAtSeparator(a[1..], b, sep);
    }
  }

  lemma {:induction false} SplitOfJoin(pieces: seq<string>, sep: char)
    requires pieces != [] && forall i :: 0 <= i < |pieces| ==> sep !in pieces[i]
    ensures Split(Join(pieces, sep), sep) == pieces
  {
    SplitOfPiece(pieces[0], sep);
    if |pieces| > 1 {
      SplitOfJoin(pieces[1..], sep);
      SplitAtSeparator(pieces[0], Join(pieces[1..], sep), sep);
    }
  }

  lemma PrependToMore(c: char, pieces: seq<string>, more: seq<string>)
    requires |pieces| > 1
    ensures Prepend(c, AllButLast(pieces) + more) == AllButLast(Prepend(c, pieces)) + more
    ensures Last(Prepend(c, pieces)) == Last(pieces)
  {
  }

  lemma PrependToOnly(c: char, piece: string, b: string, sep: char)
    requires c != sep
    ensures Prepend(c, Split(piece + b, sep)) == Split([c] + piece + b, sep)
  {
    assert ([c] + piece + b)[1..] == piece + b;
  }

  predicate MoreChangesTheLast(a: string, b: string, sep: char) {
    Split(a + b, sep) == AllButLast(Split(a, sep)) + Split(Last(Split(a, sep)) + b, sep)
  }

  lemma MoreAfterSeparator(a: string, b: string, sep: char)
    requires a != "" && a[0] == sep && MoreChangesTheLast(a[1..], b, sep)
    ensures MoreChangesTheLast(a, b, sep)
  {
    var tail := Split(a[1..], sep);
    var last := Split(Last(tail) + b, sep);
    assert (a + b)[1..] == a[1..] + b;
    assert Split(a + b, sep) == [""] + (AllButLast(tail) + last);
    assert AllButLast([""] + tail) + last == [""] + (AllButLast(tail) + last);
  }

  lemma MoreAfterOther(a: string, b: string, sep: char)
    requires a != "" && a[0] != sep && MoreChangesTheLast(a[1..], b, sep)
    ensures MoreChangesTheLast(a, b, sep)
  {
    var tail := Split(a[1..], sep);
    assert (a + b)[1..] == a[1..] + b;
    if |tail| > 1 {
      PrependToMore(a[0], tail, Split(Last(tail) + b, sep));
    } else {
      PrependToOnly(a[0], tail[0], b, sep);
      assert AllButLast(tail) + Split(tail[0] + b, sep) == Split(tail[0] + b, sep);
    }
  }

  /** More text changes only the last, unfinished piece. */
  lemma {:induction false} SplitMore(a: string, b: string, sep: char)
    ensures MoreChangesTheLast(a, b, sep)
  {
    if a == "" {
      assert a + b == b;
    } else {
      SplitMore(a[1..], b, sep);
      if a[0] == sep { MoreAfterSeparator(a, b, sep); } else { MoreAfterOther(a, b, sep); }
    }
  }

  // ---- A step mapped over a sequence, results joined ----

  function FlatMap<A, B>(s: seq<A>, f: A -> seq<B>): seq<B> {
    if s == [] then [] else FlatMap(s[..|s| - 1], f) + f(s[|s| - 1])
  }

  lemma FlatMapOne<A, B>(x: A, f: A -> seq<B>)
    ensures FlatMap([x], f) == f(x)
  {
    assert FlatMap([x], f) == FlatMap([], f) + f(x);
  }

  lemma FlatMapNext<A, B>(s: seq<A>, i: nat, f: A -> seq<B>)
    requires i < |s|
    ensures FlatMap(s[..i + 1], f) == FlatMap(s[..i], f) + f(s[i])
  {
    assert s[..i + 1][..i] == s[..i];
  }

  lemma {:induction false} FlatMapConcat<A, B>(a: seq<A>, b: seq<A>, f: A -> seq<B>)
    ensures FlatMap(a + b, f) == FlatMap(a, f) + FlatMap(b, f)
  {
    if b == [] {
      assert a + b == a;
    } else {
      var most, last := b[..|b| - 1], f(b[|b| - 1]);
      assert (a + b)[..|a + b| - 1] == a + most;
      FlatMapConcat(a, most, f);
      assert FlatMap(a, f) + FlatMap(most, f) + last == FlatMap(a, f) + (FlatMap(most, f) + last);
    }
  }

  lemma {:induction false} FlatMapNothing<A, B>(s: seq<A>, f: A -> seq<B>)
    requires forall i :: 0 <= i < |s| ==> f(s[i]) == []
    ensures FlatMap(s, f) == []
  {
    if s != [] { FlatMapNothing(s[..|s| - 1], f); }
  }
}
