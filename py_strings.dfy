// Python string primitives used by the code generator: `str.split` on one
// separator character, `sep.join`, substring search and `str.replace(old,
// new, 1)`, all on `seq<char>`.

module PyStrings {
  import opened Wrappers

  /** `s.split(c)`: the pieces between occurrences of `c`; never empty. */
  function Split(s: string, c: char): (parts: seq<string>)
    ensures |parts| >= 1
    decreases |s|
  {
    if s == [] then [[]]
    else if s[0] == c then [[]] + Split(s[1..], c)
    else
      var rest := Split(s[1..], c);
      [[s[0]] + rest[0]] + rest[1..]
  }

  /** The pieces hold no separator, and there is more than one piece
      exactly when the separator occurs. */
  lemma {:induction false} SplitPieces(s: string, c: char)
    ensures forall k :: 0 <= k < |Split(s, c)| ==> c !in Split(s, c)[k]
    ensures |Split(s, c)| == 1 <==> c !in s
    decreases |s|
  {
    if s != [] {
      var x, rest := s[0], s[1..];
      assert s == [x] + rest;
      SplitPieces(rest, c);
      SplitCons(x, rest, c);
      var ps := Split(rest, c);
      if x != c {
        assert c !in [x] + ps[0];
        assert c in s <==> c in rest;
      }
    }
  }

  /** `sep.join(parts)`. */
  function Join(parts: seq<string>, sep: string): string
    decreases |parts|
  {
    if |parts| == 0 then ""
    else if |parts| == 1 then parts[0]
    else parts[0] + sep + Join(parts[1..], sep)
  }

  /** How `Split` treats the first character. */
  lemma SplitCons(x: char, rest: string, c: char)
    ensures x == c ==> Split([x] + rest, c) == [[]] + Split(rest, c)
    ensures x != c ==> Split([x] + rest, c) == [[x] + Split(rest, c)[0]] + Split(rest, c)[1..]
  {
    assert ([x] + rest)[1..] == rest;
  }

  /** Joining the pieces of a split gives the string back. */
  lemma {:induction false} JoinSplit(s: string, c: char)
    ensures Join(Split(s, c), [c]) == s
    decreases |s|
  {
    if s != [] {
      var x, rest := s[0], s[1..];
      assert s == [x] + rest;
      SplitCons(x, rest, c);
      JoinSplit(rest, c);
      var ps := Split(rest, c);
      if x == c {
        assert Join([[]] + ps, [c]) == [] + [c] + Join(ps, [c]);
      } else if |ps| == 1 {
        assert Join([[x] + ps[0]] + ps[1..], [c]) == [x] + ps[0];
      } else {
        var tail := ps[1..];
        assert Join(ps, [c]) == ps[0] + [c] + Join(tail, [c]);
        assert Join([[x] + ps[0]] + tail, [c]) == [x] + ps[0] + [c] + Join(tail, [c]);
      }
    }
  }

  /** Splitting a join of separator-free pieces gives the pieces back. */
  lemma {:induction false} SplitJoin(parts: seq<string>, c: char)
    requires |parts| >= 1
    requires forall k :: 0 <= k < |parts| ==> c !in parts[k]
    ensures Split(Join(parts, [c]), c) == parts
    decreases |parts|, |parts[0]|
  {
    if |parts| == 1 {
      NoSeparatorSplit(parts[0], c);
    } else if parts[0] == [] {
      var tail := parts[1..];
      SplitJoin(tail, c);
      assert Join(parts, [c]) == [c] + Join(tail, [c]);
      SplitCons(c, Join(tail, [c]), c);
      assert [parts[0]] + tail == parts;
    } else {
      var x, p0, tail := parts[0][0], parts[0][1..], parts[1..];
      assert parts[0] == [x] + p0;
      var shorter := [p0] + tail;
      assert c !in p0 by {
        assert forall y :: y in p0 ==> y in parts[0];
      }
      assert x != c by {
        assert x in parts[0];
      }
      assert shorter[1..] == tail;
      SplitJoin(shorter, c);
      var js := Join(shorter, [c]);
      assert js == p0 + [c] + Join(tail, [c]);
      assert Join(parts, [c]) == [x] + js;
      SplitCons(x, js, c);
      assert [[x] + p0] + tail == parts;
    }
  }

  lemma {:induction false} NoSeparatorSplit(s: string, c: char)
    requires c !in s
    ensures Split(s, c) == [s]
    decreases |s|
  {
    if s != [] {
      var x, rest := s[0], s[1..];
      assert s == [x] + rest;
      assert c !in rest by {
        assert forall y :: y in rest ==> y in s;
      }
      NoSeparatorSplit(rest, c);
      SplitCons(x, rest, c);
    }
  }

  /** The last piece joins onto the others with one separator. */
  lemma {:induction false} JoinLast(parts: seq<string>, sep: string)
    requires |parts| >= 2
    ensures Join(parts[..|parts| - 1], sep) + sep + parts[|parts| - 1] == Join(parts, sep)
    decreases |parts|
  {
    if |parts| > 2 {
      JoinLast(parts[1..], sep);
      assert parts[1..][..|parts| - 2] == parts[..|parts| - 1][1..];
    }
  }

  /** Python's `pat in s` on strings. */
  predicate Contains(s: string, pat: string)
    decreases |s|
  {
    pat <= s || (s != [] && Contains(s[1..], pat))
  }

  /** `s.find(pat)`, with `None` for Python's -1. */
  function Find(s: string, pat: string): (r: Option<nat>)
    ensures r.Some? ==> r.value + |pat| <= |s| && s[r.value..r.value + |pat|] == pat
    decreases |s|
  {
    if pat <= s then Some(0)
    else if s == [] then None
    else match Find(s[1..], pat)
      case None => None
      case Some(i) => Some(i + 1)
  }

  /** `Find` reports the first occurrence, and none exactly when there is none. */
  lemma {:induction false} FindFirst(s: string, pat: string)
    ensures Find(s, pat).None? <==> !Contains(s, pat)
    ensures Find(s, pat).Some? ==>
      forall i :: 0 <= i < Find(s, pat).value ==> !(pat <= s[i..])
    decreases |s|
  {
    if !(pat <= s) && s != [] {
      FindFirst(s[1..], pat);
      if Find(s, pat).Some? {
        forall i | 0 < i < Find(s, pat).value
          ensures !(pat <= s[i..])
        {
          assert s[i..] == s[1..][i - 1..];
        }
      }
    }
  }

  /** `s.replace(pat, rep, 1)`. */
  function ReplaceFirst(s: string, pat: string, rep: string): string {
    match Find(s, pat)
    case None => s
    case Some(i) => s[..i] + rep + s[i + |pat|..]
  }

  /** Replacing the first occurrence at the front of `s`; no match leaves `s` alone. */
  lemma ReplaceFirstCases(s: string, pat: string, rep: string)
    ensures !Contains(s, pat) ==> ReplaceFirst(s, pat, rep) == s
    ensures pat <= s ==> ReplaceFirst(s, pat, rep) == rep + s[|pat|..]
  {
    FindFirst(s, pat);
  }
}
