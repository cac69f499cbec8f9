/** The two pieces of C string handling that diff-blob relies on: the
    `strncmp` prefix test of its path filter and the splitting of a batch
    line by `string_list_split_in_place` with the delimiter set " " and no
    split limit. */
module CStrings {

  /** A NUL-terminated C string, seen as the characters before its
      terminator; each character stands for one byte of the C string. */
  type CString = s: string | '\0' !in s

  /** `strncmp(a, b, n) == 0`: the two strings agree on their first `n`
      characters, where running into the terminator of one of them counts as
      agreement only if the other ends at the same place. So they agree when
      both are at least `n` long and share their first `n` characters, or
      when either is shorter than `n` and they are the same string. */
  function StrNEqual(a: CString, b: CString, n: nat): (equal: bool)
    ensures equal <==> if n <= |a| && n <= |b| then a[..n] == b[..n] else a == b
    decreases n
  {
    if n == 0 then true
    else if a == [] || b == [] then a == [] && b == []
    else
      assert a == [a[0]] + a[1..] && b == [b[0]] + b[1..];
      assert n <= |a| && n <= |b| ==>
        a[..n] == [a[0]] + a[1..][..n - 1] && b[..n] == [b[0]] + b[1..][..n - 1];
      a[0] == b[0] && StrNEqual(a[1..], b[1..], n - 1)
  }

  /** The path filter's test `!strncmp(path, prefix, prefix_length)`, where
      `prefix_length` is the length of `prefix`. */
  predicate HasPrefix(path: CString, prefix: CString)
  {
    StrNEqual(path, prefix, |prefix|)
  }

  /** The character-by-character test is exactly "is a literal prefix of": it
      knows nothing of path components, so "src" is a prefix of "srcfoo/a".
      This follows from the contract of `StrNEqual`. */
  lemma HasPrefixIsSeqPrefix(path: CString, prefix: CString)
    ensures HasPrefix(path, prefix) <==> prefix <= path
  {
  }

  /** `string_list_split_in_place(list, s, " ", -1)`: cuts `s` at every
      space; adjacent, leading and trailing spaces give empty tokens, and the
      empty line gives one empty token. */
  function Split(s: CString): (tokens: seq<CString>)
    ensures |tokens| >= 1
    decreases |s|
  {
    if s == [] then [""]
    else
      var rest := Split(s[1..]);
      if s[0] == ' ' then [""] + rest
      else [[s[0]] + rest[0]] + rest[1..]
  }

  /** The tokens put back together with one space between neighbours. */
  function Join(tokens: seq<CString>): (line: CString)
  {
    if tokens == [] then ""
    else if |tokens| == 1 then tokens[0]
    else tokens[0] + " " + Join(tokens[1..])
  }

  /** Splitting loses nothing: the tokens joined by spaces give the line back. */
  lemma {:induction false} JoinSplit(s: CString)
    ensures Join(Split(s)) == s
  {
    if s != [] {
      var rest := Split(s[1..]);
      JoinSplit(s[1..]);
      var t := Split(s);
      if s[0] == ' ' {
        assert t == [""] + rest;
        JoinCons("", rest);
      } else {
        var head: CString := [s[0]] + rest[0];
        assert t == [head] + rest[1..];
        if |rest| == 1 {
          assert Join(t) == head;
        } else {
          JoinCons(head, rest[1..]);
          JoinCons(rest[0], rest[1..]);
          assert [rest[0]] + rest[1..] == rest;
        }
      }
    }
  }

  /** Joining a token in front of a non-empty list puts one space after it. */
  lemma JoinCons(t: CString, ts: seq<CString>)
    requires ts != []
    ensures Join([t] + ts) == t + " " + Join(ts)
  {
  }

  /** No token holds a space. */
  lemma {:induction false} SplitTokensHaveNoSpace(s: CString)
    ensures forall i :: 0 <= i < |Split(s)| ==> ' ' !in Split(s)[i]
  {
    if s != [] {
      SplitTokensHaveNoSpace(s[1..]);
      var rest := Split(s[1..]);
      if s[0] != ' ' {
        var t := [[s[0]] + rest[0]] + rest[1..];
        assert Split(s) == t;
        forall i | 0 <= i < |t| ensures ' ' !in t[i] {
          if i > 0 { assert t[i] == rest[i]; }
        }
      }
    }
  }

  /** One more token than there are spaces. */
  lemma {:induction false} SplitCount(s: CString)
    ensures |Split(s)| == multiset(s)[' '] + 1
  {
    if s != [] {
      SplitCount(s[1..]);
      assert s == [s[0]] + s[1..];
      assert multiset(s) == multiset{s[0]} + multiset(s[1..]);
    }
  }

  /** Splitting a token followed by a space cuts exactly there. */
  lemma {:induction false} SplitAfterToken(u: CString, v: CString)
    requires ' ' !in u
    ensures Split(u + " " + v) == [u] + Split(v)
    decreases |u|
  {
    var s: CString := u + " " + v;
    if u == [] {
      assert s == " " + v && s[1..] == v;
    } else {
      SplitAfterToken(u[1..], v);
      assert s[0] == u[0] && s[1..] == u[1..] + " " + v;
      assert [u[0]] + u[1..] == u;
    }
  }

  /** A token without a space splits into itself. */
  lemma {:induction false} SplitToken(u: CString)
    requires ' ' !in u
    ensures Split(u) == [u]
    decreases |u|
  {
    if u != [] {
      SplitToken(u[1..]);
      assert [u[0]] + u[1..] == u;
    }
  }

  /** The other round trip: tokens free of spaces, joined by spaces, split
      back into the same tokens. */
  lemma {:induction false} SplitJoin(tokens: seq<CString>)
    requires tokens != []
    requires forall i :: 0 <= i < |tokens| ==> ' ' !in tokens[i]
    ensures Split(Join(tokens)) == tokens
    decreases |tokens|
  {
    if |tokens| == 1 {
      SplitToken(tokens[0]);
    } else {
      var rest := tokens[1..];
      assert forall i :: 0 <= i < |rest| ==> rest[i] == tokens[i + 1];
      SplitJoin(rest);
      var j: CString := Join(rest);
      SplitAfterToken(tokens[0], j);
      assert [tokens[0]] + rest == tokens;
    }
  }

  /** Hence a line yields exactly two tokens precisely when it holds exactly
      one space, and then it is the first token, a space and the second. */
  lemma TwoTokens(s: CString)
    ensures |Split(s)| == 2 <==> multiset(s)[' '] == 1
    ensures |Split(s)| == 2 ==> s == Split(s)[0] + " " + Split(s)[1]
  {
    SplitCount(s);
    JoinSplit(s);
    if |Split(s)| == 2 {
      assert Split(s)[1..] == [Split(s)[1]];
    }
  }
}
