/**
 * The string handling the text protocols rely on: Rust's `split_whitespace`,
 * `trim_start`, `trim_end` and `trim`, and `rebuild_message` of
 * src/comms/parsing.rs, which glues split fields back together.
 */
module Text {
  /** Unicode `White_Space`, the set Rust's `char::is_whitespace` tests. */
  predicate IsWhitespace(c: char)
  {
    var n := c as int;
    (9 <= n <= 13) || n == 32 || n == 0x85 || n == 0xA0 || n == 0x1680
    || (0x2000 <= n <= 0x200A) || n == 0x2028 || n == 0x2029 || n == 0x202F
    || n == 0x205F || n == 0x3000
  }

  /** A field as `split_whitespace` yields it: not empty and without whitespace. */
  predicate IsToken(t: string)
  {
    t != [] && forall i :: 0 <= i < |t| ==> !IsWhitespace(t[i])
  }

  predicate AllTokens(ts: seq<string>)
  {
    forall i :: 0 <= i < |ts| ==> IsToken(ts[i])
  }

  /** The length of the run of non-whitespace characters that starts `s`. */
  function TokenLength(s: string): (n: nat)
    ensures n <= |s|
    ensures forall i :: 0 <= i < n ==> !IsWhitespace(s[i])
    ensures n < |s| ==> IsWhitespace(s[n])
  {
    if s == [] || IsWhitespace(s[0]) then 0 else 1 + TokenLength(s[1..])
  }

  /** `split_whitespace`: the maximal whitespace-free runs, in order. */
  function SplitWhitespace(s: string): seq<string>
    decreases |s|
  {
    if s == [] then []
    else if IsWhitespace(s[0]) then SplitWhitespace(s[1..])
    else
      var n := TokenLength(s);
      [s[..n]] + SplitWhitespace(s[n..])
  }

  /** `trim_start`: drop leading whitespace. */
  function TrimStart(s: string): string
  {
    if s != [] && IsWhitespace(s[0]) then TrimStart(s[1..]) else s
  }

  /** `trim_end`: drop trailing whitespace. */
  function TrimEnd(s: string): (r: string)
    ensures |r| <= |s| && r == s[..|r|]
    ensures r == [] || !IsWhitespace(r[|r| - 1])
    ensures forall i :: |r| <= i < |s| ==> IsWhitespace(s[i])
  {
    if s != [] && IsWhitespace(s[|s| - 1]) then TrimEnd(s[..|s| - 1]) else s
  }

  function Trim(s: string): string
  {
    TrimStart(TrimEnd(s))
  }

  /** `.map(str::trim)` over a list of fields. */
  function TrimEach(ts: seq<string>): (r: seq<string>)
    ensures |r| == |ts|
  {
    seq(|ts|, i requires 0 <= i < |ts| => Trim(ts[i]))
  }

  /** The fields joined by single spaces. */
  function Join(ts: seq<string>): string
  {
    if ts == [] then "" else if |ts| == 1 then ts[0] else ts[0] + " " + Join(ts[1..])
  }

  /** The fold of `rebuild_message`: each field prefixed by one space, left to right. */
  function FoldSpaced(args: seq<string>): string
  {
    if args == [] then "" else FoldSpaced(args[..|args| - 1]) + " " + args[|args| - 1]
  }

  /** `rebuild_message`: the fold with its leading whitespace trimmed. */
  function RebuildMessage(args: seq<string>): string
  {
    TrimStart(FoldSpaced(args))
  }

  /** Every field `split_whitespace` yields is a token. */
  lemma {:induction false} SplitYieldsTokens(s: string)
    ensures AllTokens(SplitWhitespace(s))
    decreases |s|
  {
    if s == [] {
    } else if IsWhitespace(s[0]) {
      SplitYieldsTokens(s[1..]);
    } else {
      var n := TokenLength(s);
      SplitYieldsTokens(s[n..]);
      assert IsToken(s[..n]);
    }
  }

  /** Each field of a token is left alone by `trim`, so `.map(str::trim)` after the split changes nothing. */
  lemma TrimToken(t: string)
    requires IsToken(t)
    ensures TrimEnd(t) == t && TrimStart(t) == t && Trim(t) == t
  {
  }

  /** Trimming fields that `split_whitespace` produced changes none of them. */
  lemma TrimEachTokens(ts: seq<string>)
    requires AllTokens(ts)
    ensures TrimEach(ts) == ts
  {
    forall i | 0 <= i < |ts|
      ensures TrimEach(ts)[i] == ts[i]
    {
      TrimToken(ts[i]);
    }
  }

  lemma {:induction false} TokenLengthOfPrefix(t: string, rest: string)
    requires forall i :: 0 <= i < |t| ==> !IsWhitespace(t[i])
    requires rest == [] || IsWhitespace(rest[0])
    ensures TokenLength(t + rest) == |t|
    decreases |t|
  {
    if t == [] {
      assert t + rest == rest;
    } else {
      assert (t + rest)[1..] == t[1..] + rest;
      TokenLengthOfPrefix(t[1..], rest);
    }
  }

  /** Splitting the single-spaced join of tokens gives the tokens back. */
  lemma {:induction false} SplitJoin(ts: seq<string>)
    requires AllTokens(ts)
    ensures SplitWhitespace(Join(ts)) == ts
    decreases |ts|
  {
    if ts == [] {
    } else if |ts| == 1 {
      TokenLengthOfPrefix(ts[0], "");
      assert ts[0] + "" == ts[0];
      assert ts[0][..|ts[0]|] == ts[0] && ts[0][|ts[0]|..] == [];
    } else {
      var t, rest := ts[0], " " + Join(ts[1..]);
      assert Join(ts) == t + rest;
      TokenLengthOfPrefix(t, rest);
      assert (t + rest)[..|t|] == t;
      assert (t + rest)[|t|..] == rest;
      assert rest[1..] == Join(ts[1..]);
      assert SplitWhitespace(rest) == SplitWhitespace(Join(ts[1..]));
      SplitJoin(ts[1..]);
    }
  }

  lemma {:induction false} JoinSnoc(ts: seq<string>, last: string)
    requires ts != []
    ensures Join(ts + [last]) == Join(ts) + " " + last
    decreases |ts|
  {
    if |ts| == 1 {
      assert (ts + [last])[1..] == [last];
    } else {
      assert (ts + [last])[1..] == ts[1..] + [last];
      JoinSnoc(ts[1..], last);
    }
  }

  lemma {:induction false} FoldIsSpacedJoin(args: seq<string>)
    requires args != []
    ensures FoldSpaced(args) == " " + Join(args)
    decreases |args|
  {
    var init, last := args[..|args| - 1], args[|args| - 1];
    assert args == init + [last];
    if init == [] {
      assert FoldSpaced(init) == "";
    } else {
      FoldIsSpacedJoin(init);
      JoinSnoc(init, last);
    }
  }

  /** For whitespace-free fields `rebuild_message` is the single-spaced join, with no leading space. */
  lemma RebuildIsJoin(ts: seq<string>)
    requires AllTokens(ts)
    ensures RebuildMessage(ts) == Join(ts)
  {
    if ts != [] {
      FoldIsSpacedJoin(ts);
      var j := Join(ts);
      assert j[0] == ts[0][0] by {
        if |ts| > 1 {
          assert j == ts[0] + (" " + Join(ts[1..]));
        }
      }
      assert (" " + j)[1..] == j;
      assert TrimStart(" " + j) == TrimStart(j);
    }
  }

  /** The round trips: rebuilding split fields restores a single-spaced message, and splitting a rebuilt message restores its fields. */
  lemma RebuildRoundTrip(ts: seq<string>)
    requires AllTokens(ts)
    ensures RebuildMessage(SplitWhitespace(Join(ts))) == Join(ts)
    ensures SplitWhitespace(RebuildMessage(ts)) == ts
  {
    SplitJoin(ts);
    RebuildIsJoin(ts);
  }

  lemma {:induction false} SplitSkipsTrailingWhitespace(s: string, tail: string)
    requires forall i :: 0 <= i < |tail| ==> IsWhitespace(tail[i])
    ensures SplitWhitespace(s + tail) == SplitWhitespace(s)
    decreases |s|
  {
    if s == [] {
      SplitOfWhitespace(tail);
      assert s + tail == tail;
    } else if IsWhitespace(s[0]) {
      assert (s + tail)[1..] == s[1..] + tail;
      SplitSkipsTrailingWhitespace(s[1..], tail);
    } else {
      var n := TokenLength(s);
      TokenLengthOfPrefix(s[..n], s[n..] + tail);
      assert s + tail == s[..n] + (s[n..] + tail);
      assert (s + tail)[..n] == s[..n];
      assert (s + tail)[n..] == s[n..] + tail;
      SplitSkipsTrailingWhitespace(s[n..], tail);
    }
  }

  lemma {:induction false} SplitOfWhitespace(tail: string)
    requires forall i :: 0 <= i < |tail| ==> IsWhitespace(tail[i])
    ensures SplitWhitespace(tail) == []
    decreases |tail|
  {
    if tail != [] {
      SplitOfWhitespace(tail[1..]);
    }
  }

  /** Trimming the end first, as `parse_message` does, does not change the fields. */
  lemma SplitAfterTrimEnd(s: string)
    ensures SplitWhitespace(TrimEnd(s)) == SplitWhitespace(s)
  {
    var r := TrimEnd(s);
    assert s == r + s[|r|..];
    SplitSkipsTrailingWhitespace(r, s[|r|..]);
  }

  /** A message has no fields exactly when it is all whitespace. */
  lemma {:induction false} SplitEmptyIffBlank(s: string)
    ensures SplitWhitespace(s) == [] <==> forall i :: 0 <= i < |s| ==> IsWhitespace(s[i])
    decreases |s|
  {
    if s != [] {
      SplitEmptyIffBlank(s[1..]);
      if IsWhitespace(s[0]) {
        assert forall i :: 1 <= i < |s| ==> s[i] == s[1..][i - 1];
      }
    } else {
    }
  }
}
