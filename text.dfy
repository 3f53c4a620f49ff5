/** String operations of Python's `str` that the optimizer relies on:
    `lower()`, the `in` substring test, `split()` with no separator and
    `str(n)` for a non-negative integer. */
module Text {

  /** The characters for which Python's `str.isspace()` is true. */
  predicate IsSpace(c: char)
  {
    || ('\t' <= c <= '\r')                    // \t \n \x0b \x0c \r
    || ('\U{1C}' <= c <= '\U{1F}')            // file, group, record and unit separators
    || c == ' ' || c == '\U{85}' || c == '\U{A0}' || c == '\U{1680}'
    || ('\U{2000}' <= c <= '\U{200A}')
    || c == '\U{2028}' || c == '\U{2029}' || c == '\U{202F}' || c == '\U{205F}' || c == '\U{3000}'
  }

  predicate NoSpace(t: string)
  {
    forall k :: 0 <= k < |t| ==> !IsSpace(t[k])
  }

  function LowerChar(c: char): char
  {
    if 'A' <= c <= 'Z' then (c as int - 'A' as int + 'a' as int) as char else c
  }

  /** `s.lower()`, restricted to ASCII letters: every capital letter becomes
      its small letter, every other character stays. */
  function Lower(s: string): (r: string)
    ensures |r| == |s|
    ensures forall k :: 0 <= k < |s| ==> !('A' <= r[k] <= 'Z')
    ensures forall k :: 0 <= k < |s| && 'A' <= s[k] <= 'Z' ==> r[k] as int == s[k] as int + 32
    ensures forall k :: 0 <= k < |s| && !('A' <= s[k] <= 'Z') ==> r[k] == s[k]
  {
    seq(|s|, i requires 0 <= i < |s| => LowerChar(s[i]))
  }

  /** Lowering works character by character, so it distributes over concatenation. */
  lemma LowerAppend(a: string, b: string)
    ensures Lower(a + b) == Lower(a) + Lower(b)
  {
    assert forall k :: 0 <= k < |a| ==> (a + b)[k] == a[k];
    assert forall k :: |a| <= k < |a| + |b| ==> (a + b)[k] == b[k - |a|];
  }

  predicate IsPrefix(p: string, s: string)
  {
    |p| <= |s| && s[..|p|] == p
  }

  /** `sub` occurs in `s` starting at index `i`. */
  predicate OccursAt(s: string, sub: string, i: int)
  {
    0 <= i && i + |sub| <= |s| && s[i..i + |sub|] == sub
  }

  /** Python's `sub in s`, searching from the left. */
  function Contains(s: string, sub: string): bool
    decreases |s|
  {
    IsPrefix(sub, s) || (s != [] && Contains(s[1..], sub))
  }

  /** The left-to-right search finds `sub` exactly when it occurs somewhere. */
  lemma {:induction false} ContainsIff(s: string, sub: string)
    ensures Contains(s, sub) <==> exists i :: OccursAt(s, sub, i)
    decreases |s|
  {
    if IsPrefix(sub, s) {
      assert OccursAt(s, sub, 0);
    } else if s == [] {
      assert |sub| > 0;
    } else {
      ContainsIff(s[1..], sub);
      assert OccursAt(s, sub, 0) ==> IsPrefix(sub, s);
      if exists i :: OccursAt(s, sub, i) {
        var i :| OccursAt(s, sub, i);
        assert s[1..][i - 1..i - 1 + |sub|] == s[i..i + |sub|];
        assert OccursAt(s[1..], sub, i - 1);
      }
      if exists i :: OccursAt(s[1..], sub, i) {
        var i :| OccursAt(s[1..], sub, i);
        assert s[1..][i..i + |sub|] == s[i + 1..i + 1 + |sub|];
        assert OccursAt(s, sub, i + 1);
      }
    }
  }

  /** A string that has `mid` in it has the lowered `mid` in its lowered form. */
  lemma ContainsLoweredMiddle(head: string, mid: string, tail: string)
    ensures Contains(Lower(head + (mid + tail)), Lower(mid))
  {
    LowerAppend(head, mid + tail);
    LowerAppend(mid, tail);
    var low := Lower(head + (mid + tail));
    var lh, lm := Lower(head), Lower(mid);
    assert low == lh + (lm + Lower(tail));
    assert OccursAt(low, lm, |lh|) by {
      assert low[|lh|..|lh| + |lm|] == lm;
    }
    ContainsIff(low, lm);
  }

  /** Length of the run of non-space characters at the start of `s`. */
  function WordLength(s: string): (n: nat)
    ensures n <= |s|
    ensures forall k :: 0 <= k < n ==> !IsSpace(s[k])
    ensures n < |s| ==> IsSpace(s[n])
    decreases |s|
  {
    if s == [] || IsSpace(s[0]) then 0 else 1 + WordLength(s[1..])
  }

  /** Python's `s.split()`: the maximal runs of non-space characters, in order. */
  function Split(s: string): seq<string>
    decreases |s|
  {
    if s == [] then []
    else if IsSpace(s[0]) then Split(s[1..])
    else
      var n := WordLength(s);
      [s[..n]] + Split(s[n..])
  }

  /** split() yields non-empty words without whitespace. */
  lemma {:induction false} SplitWords(s: string)
    ensures forall w :: w in Split(s) ==> w != [] && NoSpace(w)
    decreases |s|
  {
    if s != [] {
      if IsSpace(s[0]) {
        SplitWords(s[1..]);
      } else {
        var n := WordLength(s);
        SplitWords(s[n..]);
        assert NoSpace(s[..n]);
      }
    }
  }

  lemma {:induction false} WordLengthOfJoin(t: string, u: string)
    requires NoSpace(t)
    requires u == [] || IsSpace(u[0])
    ensures WordLength(t + u) == |t|
    decreases |t|
  {
    if t != [] {
      assert (t + u)[1..] == t[1..] + u;
      WordLengthOfJoin(t[1..], u);
    } else {
      assert t + u == u;
    }
  }

  predicate AllSpace(t: string)
  {
    forall k :: 0 <= k < |t| ==> IsSpace(t[k])
  }

  /** `seps` can separate `n` words: one more run than words, all of them
      whitespace, and every run between two words non-empty. The first and
      last runs may be empty. */
  predicate Separators(seps: seq<string>, n: nat)
  {
    && |seps| == n + 1
    && (forall k :: 0 <= k < |seps| ==> AllSpace(seps[k]))
    && (forall k :: 0 < k < n ==> seps[k] != [])
  }

  /** `seps[0] + words[0] + seps[1] + ... + words[n-1] + seps[n]` */
  function Interleave(words: seq<string>, seps: seq<string>): string
    requires |seps| == |words| + 1
    decreases |words|
  {
    if words == [] then seps[0] else seps[0] + words[0] + Interleave(words[1..], seps[1..])
  }

  lemma InterleaveCons(w: string, sep: string, words: seq<string>, seps: seq<string>)
    requires |seps| == |words| + 1
    ensures Interleave([w] + words, [sep] + seps) == sep + w + Interleave(words, seps)
  {
    assert ([w] + words)[1..] == words && ([sep] + seps)[1..] == seps;
  }

  lemma {:induction false} SplitSkipsSpace(t: string, u: string)
    requires AllSpace(t)
    ensures Split(t + u) == Split(u)
    decreases |t|
  {
    if t != [] {
      assert (t + u)[1..] == t[1..] + u;
      SplitSkipsSpace(t[1..], u);
    } else {
      assert t + u == u;
    }
  }

  /** Dropping the first word drops the first separator run. */
  lemma SeparatorsTail(seps: seq<string>, n: nat)
    requires Separators(seps, n + 1)
    ensures Separators(seps[1..], n)
    ensures n > 0 ==> seps[1..][0] != []
  {
    assert forall k :: 0 <= k < n + 1 ==> seps[1..][k] == seps[k + 1];
  }

  lemma InterleaveHead(words: seq<string>, seps: seq<string>)
    requires |seps| == |words| + 1 && words != []
    ensures Interleave(words, seps) == seps[0] + (words[0] + Interleave(words[1..], seps[1..]))
  {
  }

  /** A word followed by whitespace, or by nothing, is split off whole. */
  lemma WordThenRest(w: string, rest: string)
    requires w != [] && NoSpace(w)
    requires rest == [] || IsSpace(rest[0])
    ensures Split(w + rest) == [w] + Split(rest)
  {
    WordLengthOfJoin(w, rest);
    assert (w + rest)[..|w|] == w && (w + rest)[|w|..] == rest;
  }

  /** A word, a non-empty whitespace run, and the rest: the word is split
      off and the run is dropped. */
  lemma SplitWordSep(w: string, sep: string, rest: string)
    requires w != [] && NoSpace(w)
    requires sep != [] && AllSpace(sep)
    ensures Split(w + (sep + rest)) == [w] + Split(rest)
  {
    assert (sep + rest)[0] == sep[0];
    WordThenRest(w, sep + rest);
    SplitSkipsSpace(sep, rest);
  }

  /** A word followed by whitespace only is a single word. */
  lemma OneWord(w: string, sep: string)
    requires w != [] && NoSpace(w) && AllSpace(sep)
    ensures Split(w + sep) == [w]
  {
    assert sep == [] || IsSpace(sep[0]);
    WordThenRest(w, sep);
    SplitSkipsSpace(sep, []);
    assert sep + [] == sep;
  }

  /** A layout starts with whitespace unless it is empty or its first run is. */
  lemma InterleaveStart(words: seq<string>, seps: seq<string>)
    requires |seps| == |words| + 1
    requires AllSpace(seps[0])
    requires words != [] ==> seps[0] != []
    ensures Interleave(words, seps) == [] || IsSpace(Interleave(words, seps)[0])
  {
    if words != [] {
      InterleaveHead(words, seps);
    }
  }

  /** Splitting recovers the words from any whitespace-separated layout of
      them, with leading, trailing and repeated whitespace. */
  lemma {:induction false} SplitInterleave(words: seq<string>, seps: seq<string>)
    requires forall w :: w in words ==> w != [] && NoSpace(w)
    requires Separators(seps, |words|)
    ensures Split(Interleave(words, seps)) == words
    decreases |words|
  {
    if words == [] {
      SplitSkipsSpace(seps[0], []);
      assert seps[0] + [] == seps[0];
    } else {
      var w, ws, ss := words[0], words[1..], seps[1..];
      var rest := Interleave(ws, ss);
      assert forall x :: x in ws ==> x in words;
      SeparatorsTail(seps, |ws|);
      SplitInterleave(ws, ss);
      InterleaveStart(ws, ss);
      assert w in words;
      WordThenRest(w, rest);
      InterleaveHead(words, seps);
      SplitSkipsSpace(seps[0], w + rest);
    }
  }

  /** A leading whitespace character joins the first separator run. */
  lemma LeadingSpace(c: char, words: seq<string>, tail: seq<string>) returns (seps: seq<string>)
    requires IsSpace(c) && Separators(tail, |words|)
    ensures Separators(seps, |words|)
    ensures Interleave(words, seps) == [c] + Interleave(words, tail)
  {
    seps := [[c] + tail[0]] + tail[1..];
    assert forall k :: 0 < k < |seps| ==> seps[k] == tail[k];
    assert seps[1..] == tail[1..];
  }

  lemma FirstChar(a: string, b: string)
    requires b != []
    ensures (a + b)[0] == if a == [] then b[0] else a[0]
  {
  }

  /** A leading word becomes the first word, after an empty separator run. */
  lemma LeadingWord(w: string, words: seq<string>, tail: seq<string>) returns (seps: seq<string>)
    requires w != [] && NoSpace(w)
    requires forall x :: x in words ==> x != [] && NoSpace(x)
    requires Separators(tail, |words|)
    requires words != [] ==> Interleave(words, tail) != [] && IsSpace(Interleave(words, tail)[0])
    ensures Separators(seps, |words| + 1)
    ensures Interleave([w] + words, seps) == w + Interleave(words, tail)
  {
    seps := [[]] + tail;
    assert seps[1..] == tail;
    if words != [] {
      var rest := Interleave(words, tail);
      assert words[0] in words;
      var x := words[0] + Interleave(words[1..], tail[1..]);
      assert rest == tail[0] + x;
      assert !IsSpace(x[0]) by { assert x[0] == words[0][0]; }
      FirstChar(tail[0], x);
    }
    assert ([w] + words)[1..] == words;
  }

  /** Conversely, every string is its words laid out with whitespace runs:
      the words `Split` returns are the maximal non-whitespace runs of `s`,
      in order. */
  lemma {:induction false} SplitDecomposes(s: string) returns (seps: seq<string>)
    ensures Separators(seps, |Split(s)|)
    ensures Interleave(Split(s), seps) == s
    decreases |s|
  {
    if s == [] {
      seps := [[]];
    } else if IsSpace(s[0]) {
      var tail := SplitDecomposes(s[1..]);
      seps := LeadingSpace(s[0], Split(s[1..]), tail);
      assert s == [s[0]] + s[1..];
    } else {
      var n := WordLength(s);
      var rest := s[n..];
      var tail := SplitDecomposes(rest);
      SplitWords(rest);
      seps := LeadingWord(s[..n], Split(rest), tail);
      assert s == s[..n] + rest;
    }
  }

  predicate IsDigits(s: string)
  {
    forall k :: 0 <= k < |s| ==> '0' <= s[k] <= '9'
  }

  function DigitChar(d: nat): (c: char)
    requires d < 10
    ensures '0' <= c <= '9'
  {
    ('0' as int + d) as char
  }

  /** Python's `str(n)` for `n >= 0`: decimal digits without leading zeros. */
  function NatToString(n: nat): (s: string)
    ensures |s| >= 1 && IsDigits(s)
    ensures s[0] == '0' ==> n == 0
    decreases n
  {
    if n < 10 then [DigitChar(n)] else NatToString(n / 10) + [DigitChar(n % 10)]
  }

  /** The number a string of decimal digits denotes. */
  function DigitsValue(s: string): nat
    requires IsDigits(s)
  {
    if s == [] then 0
    else 10 * DigitsValue(s[..|s| - 1]) + (s[|s| - 1] as int - '0' as int)
  }

  /** Reading back the decimal text of `n` gives `n`. */
  lemma {:induction false} NatToStringRoundTrip(n: nat)
    ensures DigitsValue(NatToString(n)) == n
    decreases n
  {
    if n >= 10 {
      var s := NatToString(n);
      assert s[..|s| - 1] == NatToString(n / 10);
      NatToStringRoundTrip(n / 10);
    }
  }
}
