/** The parts of `java.lang.String` the layout engine relies on: `trim`, `indexOf`,
    `contains`, `split(",")`, `replaceAll(",", "")`, plus the joins the engine builds. */
module JavaStrings {

  /** The characters `String.trim()` removes: every char up to and including the space. */
  predicate Blank(c: char) {
    c <= ' '
  }

  /** `s` with every blank character removed: what survives any amount of trimming. */
  function Strip(s: string): (r: string)
    ensures |r| <= |s|
    ensures forall i :: 0 <= i < |r| ==> !Blank(r[i])
  {
    if s == [] then [] else (if Blank(s[0]) then [] else [s[0]]) + Strip(s[1..])
  }

  /** All strings of `lines`, one after the other. */
  function Concat(lines: seq<string>): string {
    if lines == [] then [] else lines[0] + Concat(lines[1..])
  }

  /** Number of blank characters at the start of `s`. */
  function LeadingBlanks(s: string): (k: nat)
    ensures k <= |s|
    ensures forall i :: 0 <= i < k ==> Blank(s[i])
    ensures k < |s| ==> !Blank(s[k])
  {
    if |s| > 0 && Blank(s[0]) then 1 + LeadingBlanks(s[1..]) else 0
  }

  /** End index of `s` once the blank characters at its end, down to `from`, are dropped. */
  function TrailingStart(s: string, from: nat): (k: nat)
    requires from <= |s|
    ensures from <= k <= |s|
    ensures forall i :: k <= i < |s| ==> Blank(s[i])
    ensures from < k ==> !Blank(s[k - 1])
    decreases |s|
  {
    if from < |s| && Blank(s[|s| - 1]) then TrailingStart(s[..|s| - 1], from) else |s|
  }

  /** `String.trim()`: `s` without its leading and trailing blank characters. */
  function Trim(s: string): (r: string)
    ensures |r| <= |s|
    ensures |r| > 0 ==> !Blank(r[0]) && !Blank(r[|r| - 1])
    ensures |s| > 0 && Blank(s[0]) ==> |r| < |s|
  {
    var start := LeadingBlanks(s);
    var end := TrailingStart(s, start);
    s[start..end]
  }

  lemma {:induction false} StripAppend(a: string, b: string)
    ensures Strip(a + b) == Strip(a) + Strip(b)
  {
    if a == [] {
      assert a + b == b;
    } else {
      var head := if Blank(a[0]) then [] else [a[0]];
      assert (a + b)[0] == a[0];
      assert (a + b)[1..] == a[1..] + b;
      StripAppend(a[1..], b);
      calc {
        Strip(a + b);
        head + Strip(a[1..] + b);
        head + (Strip(a[1..]) + Strip(b));
        (head + Strip(a[1..])) + Strip(b);
      }
    }
  }

  lemma {:induction false} StripBlanks(s: string)
    requires forall i :: 0 <= i < |s| ==> Blank(s[i])
    ensures Strip(s) == []
  {
    if s != [] {
      StripBlanks(s[1..]);
    }
  }

  /** Trimming removes nothing but blanks: the non-blank characters stay, in order. */
  lemma StripTrim(s: string)
    ensures Strip(Trim(s)) == Strip(s)
  {
    var start := LeadingBlanks(s);
    var end := TrailingStart(s, start);
    assert s == s[..start] + s[start..end] + s[end..];
    StripAppend(s[..start] + s[start..end], s[end..]);
    StripAppend(s[..start], s[start..end]);
    StripBlanks(s[..start]);
    StripBlanks(s[end..]);
  }

  /** `s.indexOf(c, from)`: the first index at or after `from` holding `c`, or -1. */
  function IndexOf(s: string, c: char, from: int): (r: int)
    ensures -1 <= r < |s|
    ensures 0 <= r ==> from <= r && s[r] == c
    ensures forall i :: 0 <= i < |s| && from <= i && (r < 0 || i < r) ==> s[i] != c
    decreases |s| - from
  {
    if from < 0 then IndexOf(s, c, 0)
    else if from >= |s| then -1
    else if s[from] == c then from
    else IndexOf(s, c, from + 1)
  }

  /** `s.contains(sub)`. */
  predicate Contains(s: string, sub: string)
    decreases |s|
  {
    sub <= s || (s != [] && Contains(s[1..], sub))
  }

  /** `sub` occurs in `s` starting at index `i`. */
  predicate OccursAt(s: string, sub: string, i: int) {
    0 <= i <= |s| - |sub| && s[i..i + |sub|] == sub
  }

  /** An occurrence at `i + 1` is an occurrence at `i` in the tail. */
  lemma OccursInTail(s: string, sub: string, i: int)
    requires 0 <= i && OccursAt(s, sub, i + 1)
    ensures OccursAt(s[1..], sub, i)
  {
    assert s[1..][i..i + |sub|] == s[i + 1..i + 1 + |sub|];
  }

  /** An occurrence anywhere makes `contains` hold. */
  lemma {:induction false} OccursContains(s: string, sub: string, i: int)
    requires OccursAt(s, sub, i)
    ensures Contains(s, sub)
    decreases i
  {
    if i == 0 {
      assert sub <= s;
    } else {
      OccursInTail(s, sub, i - 1);
      OccursContains(s[1..], sub, i - 1);
    }
  }

  /** When `contains` holds there is an occurrence. */
  lemma {:induction false} ContainsWitness(s: string, sub: string)
    requires Contains(s, sub)
    ensures exists i :: OccursAt(s, sub, i)
    decreases |s|
  {
    if sub <= s {
      assert OccursAt(s, sub, 0);
    } else {
      ContainsWitness(s[1..], sub);
      var i :| OccursAt(s[1..], sub, i);
      assert s[1..][i..i + |sub|] == s[i + 1..i + 1 + |sub|];
      assert OccursAt(s, sub, i + 1);
    }
  }

  /** `contains` holds exactly when `sub` occurs in `s` at some index. */
  lemma ContainsOccurs(s: string, sub: string)
    ensures Contains(s, sub) <==> exists i :: OccursAt(s, sub, i)
  {
    if Contains(s, sub) {
      ContainsWitness(s, sub);
    }
    forall i | OccursAt(s, sub, i)
      ensures Contains(s, sub)
    {
      OccursContains(s, sub, i);
    }
  }

  /** The maximal pieces of `s` between occurrences of `c`, empty pieces included. */
  function Pieces(s: string, c: char): (r: seq<string>)
    ensures |r| >= 1
    ensures forall i :: 0 <= i < |r| ==> c !in r[i]
    decreases |s|
  {
    var k := IndexOf(s, c, 0);
    if k < 0 then
      [s]
    else
      var rest := Pieces(s[k + 1..], c);
      assert c !in s[..k] by {
        assert forall i :: 0 <= i < k ==> s[..k][i] == s[i];
      }
      [s[..k]] + rest
  }

  /** `pieces` without its trailing empty strings. */
  function DropTrailingEmpty(pieces: seq<string>): (r: seq<string>)
    ensures r <= pieces
    ensures r != [] ==> r[|r| - 1] != ""
    ensures forall i :: |r| <= i < |pieces| ==> pieces[i] == ""
  {
    if pieces != [] && pieces[|pieces| - 1] == "" then DropTrailingEmpty(pieces[..|pieces| - 1]) else pieces
  }

  /** `s.split(c)` for a delimiter that is not a regular-expression metacharacter:
      the input itself when `c` does not occur, otherwise the pieces without trailing empty ones. */
  function Split(s: string, c: char): (r: seq<string>)
    ensures forall i :: 0 <= i < |r| ==> c !in r[i]
    ensures c !in s ==> r == [s]
  {
    if c !in s then [s] else DropTrailingEmpty(Pieces(s, c))
  }

  /** The pieces joined back together with `c` between neighbours. */
  function Interleave(pieces: seq<string>, c: char): string {
    if pieces == [] then []
    else if |pieces| == 1 then pieces[0]
    else pieces[0] + [c] + Interleave(pieces[1..], c)
  }

  /** The pieces between the occurrences of `c`, put back together with `c`, give `s`. */
  lemma {:induction false} PiecesRejoin(s: string, c: char)
    ensures Interleave(Pieces(s, c), c) == s
    decreases |s|
  {
    var k := IndexOf(s, c, 0);
    if k >= 0 {
      var rest := Pieces(s[k + 1..], c);
      PiecesRejoin(s[k + 1..], c);
      var p := [s[..k]] + rest;
      assert p[1..] == rest;
      assert Interleave(p, c) == s[..k] + [c] + s[k + 1..];
      assert s == s[..k] + [c] + s[k + 1..];
    }
  }

  /** Conversely, pieces free of `c` are the pieces of their own rejoining: the split
      is the only way to cut `s` at every `c`. */
  lemma {:induction false} PiecesUnique(pieces: seq<string>, c: char)
    requires pieces != []
    requires forall i :: 0 <= i < |pieces| ==> c !in pieces[i]
    ensures Pieces(Interleave(pieces, c), c) == pieces
  {
    if |pieces| == 1 {
      assert IndexOf(pieces[0], c, 0) < 0;
    } else {
      PiecesCons(pieces[0], c, Interleave(pieces[1..], c));
      PiecesUnique(pieces[1..], c);
      assert [pieces[0]] + pieces[1..] == pieces;
    }
  }

  /** What `split` returns: the pieces of `s` between occurrences of `c`, which rejoin
      to `s`, with exactly the trailing empty pieces dropped when `c` occurs, and `s`
      itself when it does not. */
  lemma SplitRejoin(s: string, c: char)
    ensures var r := Split(s, c);
            var p := Pieces(s, c);
            Interleave(p, c) == s &&
            (c !in s ==> r == [s] && p == [s]) &&
            (c in s ==> r <= p && (r != [] ==> r[|r| - 1] != "") &&
                        forall i :: |r| <= i < |p| ==> p[i] == "")
  {
    PiecesRejoin(s, c);
    if c !in s {
      assert IndexOf(s, c, 0) < 0;
    }
  }

  /** `s.replaceAll(c, "")` for a delimiter that is not a regular-expression metacharacter. */
  function Erase(s: string, c: char): (r: string)
    ensures c !in r
    ensures c !in s ==> r == s
  {
    if s == [] then [] else (if s[0] == c then [] else [s[0]]) + Erase(s[1..], c)
  }

  /** Every key followed by `c`, all concatenated: the string `addColorText` builds. */
  function JoinTerminated(keys: seq<string>, c: char): (r: string)
    ensures |r| >= |keys|
  {
    if keys == [] then [] else keys[0] + [c] + JoinTerminated(keys[1..], c)
  }

  /** Appending a key to the list appends it, and its terminator, to the join. */
  lemma {:induction false} JoinTerminatedSnoc(keys: seq<string>, key: string, c: char)
    ensures JoinTerminated(keys + [key], c) == JoinTerminated(keys, c) + key + [c]
  {
    if keys == [] {
      assert [] + [key] == [key];
      assert JoinTerminated([key], c) == key + [c] + JoinTerminated([], c);
    } else {
      assert (keys + [key])[0] == keys[0];
      assert (keys + [key])[1..] == keys[1..] + [key];
      JoinTerminatedSnoc(keys[1..], key, c);
    }
  }

  /** The first `c` in `a + [c] + rest` is the one right after `a`, when `a` holds none. */
  lemma IndexOfAfter(a: string, c: char, rest: string)
    requires c !in a
    ensures IndexOf(a + [c] + rest, c, 0) == |a|
  {
    var s := a + [c] + rest;
    assert s[|a|] == c;
    assert forall i :: 0 <= i < |a| ==> s[i] == a[i];
  }

  lemma ConsSnoc<T>(xs: seq<T>, x: T)
    requires xs != []
    ensures [xs[0]] + (xs[1..] + [x]) == xs + [x]
  {
  }

  /** A piece free of `c` followed by `c` comes off the front as the first piece. */
  lemma PiecesCons(a: string, c: char, rest: string)
    requires c !in a
    ensures Pieces(a + [c] + rest, c) == [a] + Pieces(rest, c)
  {
    var s := a + [c] + rest;
    IndexOfAfter(a, c, rest);
    assert s[..|a|] == a;
    assert s[|a| + 1..] == rest;
  }

  lemma {:induction false} PiecesOfJoin(keys: seq<string>, c: char)
    requires forall i :: 0 <= i < |keys| ==> c !in keys[i]
    ensures Pieces(JoinTerminated(keys, c), c) == keys + [""]
  {
    if keys == [] {
      assert IndexOf([], c, 0) == -1;
    } else {
      var rest := JoinTerminated(keys[1..], c);
      assert JoinTerminated(keys, c) == keys[0] + [c] + rest;
      PiecesCons(keys[0], c, rest);
      PiecesOfJoin(keys[1..], c);
      ConsSnoc(keys, "");
    }
  }

  /** Splitting the joined keys gives the keys back, provided none holds the delimiter
      and the last one is not empty (Java drops trailing empty pieces). */
  lemma SplitJoin(keys: seq<string>, c: char)
    requires keys != []
    requires forall i :: 0 <= i < |keys| ==> c !in keys[i]
    requires keys[|keys| - 1] != ""
    ensures Split(JoinTerminated(keys, c), c) == keys
  {
    var s := JoinTerminated(keys, c);
    PiecesOfJoin(keys, c);
    assert c in s by {
      assert s == keys[0] + [c] + JoinTerminated(keys[1..], c);
      assert s[|keys[0]|] == c;
    }
    var padded := keys + [""];
    assert padded[..|padded| - 1] == keys;
    assert DropTrailingEmpty(padded) == DropTrailingEmpty(keys);
  }
}
