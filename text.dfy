/** The JavaScript string operations the service relies on, over Dafny
    strings: `String.prototype.split` with a one-character separator, its
    inverse (joining with that separator), and substring search. */
module Text {

  /** `part` occurs in `text` starting at position `i`. */
  predicate OccursAt(text: string, part: string, i: int) {
    0 <= i <= |text| - |part| && text[i..i + |part|] == part
  }

  /** `part` occurs as a contiguous segment of `text`. */
  predicate Contains(text: string, part: string) {
    exists i | 0 <= i <= |text| - |part| :: OccursAt(text, part, i)
  }

  /** The middle of a three-piece concatenation occurs in it; every prompt
      template interpolates its context this way. */
  lemma ContainsMiddle(before: string, part: string, after: string)
    ensures Contains(before + part + after, part)
  {
    var text := before + part + after;
    assert text[|before|..|before| + |part|] == part;
    assert OccursAt(text, part, |before|);
  }

  /** A segment of a segment is a segment of the whole. */
  lemma {:induction false} ContainsTransitive(text: string, middle: string, part: string)
    requires Contains(text, middle) && Contains(middle, part)
    ensures Contains(text, part)
  {
    var i :| OccursAt(text, middle, i);
    var j :| OccursAt(middle, part, j);
    assert OccursAt(text, middle, i) && OccursAt(middle, part, j);
    forall k | 0 <= k < |part|
      ensures text[i + j..i + j + |part|][k] == part[k]
    {
      assert part[k] == middle[j + k] == text[i + j + k];
    }
    assert OccursAt(text, part, i + j);
  }

  /** Position of the first `c` in `s` (`indexOf`), or |s| when `c` does
      not occur. */
  function IndexOf(s: string, c: char): (k: nat)
    ensures k <= |s|
    ensures k < |s| ==> s[k] == c
    ensures c !in s[..k]
    ensures k == |s| <==> c !in s
  {
    if |s| == 0 then 0
    else if s[0] == c then 0
    else
      var k := 1 + IndexOf(s[1..], c);
      assert s[..k] == [s[0]] + s[1..][..k - 1];
      assert c in s ==> c in s[1..];
      k
  }

  /** `s.split(sep)`: the maximal pieces of `s` between occurrences of
      `sep`; an empty string splits into one empty piece. */
  function Split(s: string, sep: char): (pieces: seq<string>)
    ensures |pieces| >= 1
    ensures forall i :: 0 <= i < |pieces| ==> sep !in pieces[i]
    decreases |s|
  {
    if |s| == 0 then [""]
    else
      var rest := Split(s[1..], sep);
      if s[0] == sep then [""] + rest
      else [[s[0]] + rest[0]] + rest[1..]
  }

  /** `pieces.join(sep)`. */
  function Join(pieces: seq<string>, sep: char): string
    requires |pieces| >= 1
  {
    if |pieces| == 1 then pieces[0] else pieces[0] + [sep] + Join(pieces[1..], sep)
  }

  /** Joining the pieces of a split gives back the original string. */
  lemma {:induction false} JoinSplit(s: string, sep: char)
    ensures Join(Split(s, sep), sep) == s
    decreases |s|
  {
    if |s| > 0 {
      var rest := Split(s[1..], sep);
      JoinSplit(s[1..], sep);
      if s[0] == sep {
        assert ([""] + rest)[1..] == rest;
        assert s == [sep] + s[1..];
      } else if |rest| == 1 {
        assert s == [s[0]] + s[1..];
      } else {
        var pieces := Split(s, sep);
        assert pieces[1..] == rest[1..];
        assert Join(rest, sep) == rest[0] + [sep] + Join(rest[1..], sep);
        assert s == [s[0]] + s[1..];
      }
    }
  }

  /** A string without the separator splits into itself alone. */
  lemma {:induction false} SplitWithoutSeparator(s: string, sep: char)
    requires sep !in s
    ensures Split(s, sep) == [s]
    decreases |s|
  {
    if |s| > 0 {
      SplitWithoutSeparator(s[1..], sep);
      assert s == [s[0]] + s[1..];
    }
  }

  /** Splitting at the first separator: the piece before it comes first,
      followed by the split of what comes after it. */
  lemma {:induction false} SplitAfterPiece(piece: string, sep: char, rest: string)
    requires sep !in piece
    ensures Split(piece + [sep] + rest, sep) == [piece] + Split(rest, sep)
    decreases |piece|
  {
    var s := piece + [sep] + rest;
    if |piece| == 0 {
      assert s[1..] == rest;
    } else {
      SplitAfterPiece(piece[1..], sep, rest);
      assert s[1..] == piece[1..] + [sep] + rest;
      assert piece == [piece[0]] + piece[1..];
    }
  }

  /** The first piece of a split ends at the first separator, and the
      remaining pieces are the split of what follows that separator. */
  lemma SplitAtFirst(s: string, sep: char)
    ensures Split(s, sep)[0] == s[..IndexOf(s, sep)]
    ensures IndexOf(s, sep) == |s| ==> |Split(s, sep)| == 1
    ensures IndexOf(s, sep) < |s| ==>
      Split(s, sep)[1..] == Split(s[IndexOf(s, sep) + 1..], sep)
  {
    var k := IndexOf(s, sep);
    if k == |s| {
      SplitWithoutSeparator(s, sep);
      assert s[..k] == s;
    } else {
      assert s == s[..k] + [sep] + s[k + 1..];
      SplitAfterPiece(s[..k], sep, s[k + 1..]);
    }
  }

  /** Splitting a join of separator-free pieces gives the pieces back. */
  lemma {:induction false} SplitJoin(pieces: seq<string>, sep: char)
    requires |pieces| >= 1
    requires forall i :: 0 <= i < |pieces| ==> sep !in pieces[i]
    ensures Split(Join(pieces, sep), sep) == pieces
    decreases |pieces|
  {
    if |pieces| == 1 {
      SplitWithoutSeparator(pieces[0], sep);
    } else {
      SplitJoin(pieces[1..], sep);
      SplitAfterPiece(pieces[0], sep, Join(pieces[1..], sep));
    }
  }

  /** The first `n` elements of `xs` (`xs.slice(0, n)`). */
  function Take<T>(xs: seq<T>, n: nat): (prefix: seq<T>)
    ensures |prefix| == if |xs| < n then |xs| else n
    ensures prefix <= xs
  {
    xs[..if |xs| < n then |xs| else n]
  }

  /** Joining the first `k` pieces gives a prefix of joining them all. */
  lemma {:induction false} JoinOfPrefix(pieces: seq<string>, k: nat, sep: char)
    requires 1 <= k <= |pieces|
    ensures Join(pieces[..k], sep) <= Join(pieces, sep)
    decreases k
  {
    if k == 1 {
      assert pieces[..k] == [pieces[0]];
    } else {
      var head := pieces[..k];
      assert head[0] == pieces[0];
      assert head[1..] == pieces[1..][..k - 1];
      JoinOfPrefix(pieces[1..], k - 1, sep);
      var shorter := Join(pieces[1..][..k - 1], sep);
      var longer := Join(pieces[1..], sep);
      assert Join(head, sep) == pieces[0] + [sep] + shorter;
      assert Join(pieces, sep) == pieces[0] + [sep] + longer;
      assert longer[..|shorter|] == shorter;
    }
  }
}
