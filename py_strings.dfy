/** The few Python `str` operations the application controllers rely on:
    `startswith`, `strip(chars)`, `sep.join(parts)` and `split(sep)`,
    each with the facts the controllers need about it. */
module PyStrings {

  /** Python's `s.startswith(p)`. */
  predicate StartsWith(s: string, p: string) {
    |p| <= |s| && s[..|p|] == p
  }

  /** Python's `s.lstrip(chars)`, with the characters given as a set:
      the longest suffix of `s` that does not start with one of them. */
  function LStrip(s: string, chars: set<char>): (r: string)
    ensures |r| <= |s| && r == s[|s| - |r|..]
    ensures r != [] ==> r[0] !in chars
    ensures forall i :: 0 <= i < |s| - |r| ==> s[i] in chars
    decreases |s|
  {
    if |s| > 0 && s[0] in chars then LStrip(s[1..], chars) else s
  }

  /** Python's `s.rstrip(chars)`: the longest prefix of `s` that does not
      end in one of them. */
  function RStrip(s: string, chars: set<char>): (r: string)
    ensures |r| <= |s| && r == s[..|r|]
    ensures r != [] ==> r[|r| - 1] !in chars
    ensures forall i :: |r| <= i < |s| ==> s[i] in chars
    decreases |s|
  {
    if |s| > 0 && s[|s| - 1] in chars then RStrip(s[..|s| - 1], chars) else s
  }

  /** Python's `s.strip(chars)`: both ends at once. */
  function Strip(s: string, chars: set<char>): string {
    RStrip(LStrip(s, chars), chars)
  }

  /** The ends of `s` hold none of `chars`, so stripping leaves it alone. */
  predicate PlainEnds(s: string, chars: set<char>) {
    s != [] ==> s[0] !in chars && s[|s| - 1] !in chars
  }

  /** `r` is `s` with a run of `chars` cut from each end and nothing else. */
  predicate TrimmedFrom(r: string, s: string, chars: set<char>) {
    exists lo | 0 <= lo <= |s| :: TrimmedAt(r, s, chars, lo)
  }

  /** `r` is `s` with its first `lo` characters and a tail cut, all of them
      in `chars`. */
  predicate TrimmedAt(r: string, s: string, chars: set<char>, lo: int) {
    && 0 <= lo <= |s| - |r|
    && r == s[lo..lo + |r|]
    && (forall i :: 0 <= i < lo ==> s[i] in chars)
    && (forall i :: lo + |r| <= i < |s| ==> s[i] in chars)
  }

  /** Strip removes exactly a run of `chars` at each end and nothing else:
      its result is a slice of `s`, every character cut away belongs to
      `chars`, and its own ends are plain. */
  lemma {:induction false} StripTrims(s: string, chars: set<char>)
    ensures TrimmedFrom(Strip(s, chars), s, chars) && PlainEnds(Strip(s, chars), chars)
  {
    var l := LStrip(s, chars);
    var r, lo := RStrip(l, chars), |s| - |l|;
    assert lo + |r| <= |s| && r == s[lo..lo + |r|] by { StripSlice(s, chars); }
    assert forall i :: lo + |r| <= i < |s| ==> s[i] in chars by { StripCutsTrailing(s, chars); }
    assert forall i :: 0 <= i < lo ==> s[i] in chars;
    assert TrimmedFrom(r, s, chars) by { TrimmedWitness(r, s, chars, lo); }
    assert PlainEnds(r, chars) by { StripPlainEnds(s, chars); }
  }

  /** A cut position with the cut characters all in `chars` shows the trim. */
  lemma TrimmedWitness(r: string, s: string, chars: set<char>, lo: int)
    requires 0 <= lo && lo + |r| <= |s| && r == s[lo..lo + |r|]
    requires forall i :: 0 <= i < lo ==> s[i] in chars
    requires forall i :: lo + |r| <= i < |s| ==> s[i] in chars
    ensures TrimmedFrom(r, s, chars)
  {
    assert TrimmedAt(r, s, chars, lo);
  }

  lemma {:induction false} StripSlice(s: string, chars: set<char>)
    ensures var r, lo := Strip(s, chars), |s| - |LStrip(s, chars)|;
      lo + |r| <= |s| && r == s[lo..lo + |r|]
  {
    var l := LStrip(s, chars);
    var r := RStrip(l, chars);
    var lo := |s| - |l|;
    PrefixOfSuffix(s, l, r, lo);
  }

  /** A prefix of a suffix of `s` is a slice of `s`. */
  lemma PrefixOfSuffix(s: string, l: string, r: string, lo: int)
    requires 0 <= lo <= |s| && l == s[lo..] && |r| <= |l| && r == l[..|r|]
    ensures lo + |r| <= |s| && r == s[lo..lo + |r|]
  {
  }

  lemma {:induction false} StripCutsTrailing(s: string, chars: set<char>)
    ensures var r, lo := Strip(s, chars), |s| - |LStrip(s, chars)|;
      forall i :: lo + |r| <= i < |s| ==> s[i] in chars
  {
    var l := LStrip(s, chars);
    var r := RStrip(l, chars);
    var lo := |s| - |l|;
    assert l == s[lo..];
    forall i | lo + |r| <= i < |s| ensures s[i] in chars {
      assert s[i] == l[i - lo];
    }
  }

  lemma {:induction false} StripPlainEnds(s: string, chars: set<char>)
    ensures PlainEnds(Strip(s, chars), chars)
  {
    var l := LStrip(s, chars);
    var r := RStrip(l, chars);
    if r != [] {
      assert r[0] == l[0];
    }
  }

  /** A name line `">" + n` strips back to `n` when `n` has plain ends. */
  lemma StripMarker(marker: char, n: string, chars: set<char>)
    requires marker in chars && PlainEnds(n, chars)
    ensures Strip([marker] + n, chars) == n
  {
    assert ([marker] + n)[1..] == n;
  }

  /** Python's `sep.join(parts)`. */
  function Join(sep: string, parts: seq<string>): (r: string)
    ensures |parts| == 1 ==> r == parts[0]
    decreases |parts|
  {
    if |parts| == 0 then ""
    else if |parts| == 1 then parts[0]
    else parts[0] + sep + Join(sep, parts[1..])
  }

  /** Python's `s.split(c)` for a one-character separator: always at least one
      piece, and the pieces with the separators put back are `s` again. */
  function Split(s: string, c: char): (r: seq<string>)
    ensures |r| >= 1
    ensures forall i :: 0 <= i < |r| ==> c !in r[i]
    ensures Join([c], r) == s
    decreases |s|
  {
    if |s| == 0 then [""]
    else
      var rest := Split(s[1..], c);
      if s[0] == c then
        assert [c] + Join([c], rest) == [s[0]] + s[1..];
        [""] + rest
      else
        SplitHeadJoin(s[0], rest, c);
        [[s[0]] + rest[0]] + rest[1..]
  }

  /** Putting a character in front of the first piece puts it in front of the join. */
  lemma {:induction false} SplitHeadJoin(x: char, pieces: seq<string>, c: char)
    requires |pieces| >= 1
    ensures Join([c], [[x] + pieces[0]] + pieces[1..]) == [x] + Join([c], pieces)
  {
    var head, rest := pieces[0], pieces[1..];
    var p := [[x] + head] + rest;
    assert p[0] == [x] + head && p[1..] == rest;
    if rest != [] {
      var tail := Join([c], rest);
      assert Join([c], p) == ([x] + head) + [c] + tail;
      assert Join([c], pieces) == head + [c] + tail;
      assert ([x] + head) + [c] + tail == [x] + (head + [c] + tail);
    }
  }

  /** A piece free of the separator, followed by the separator, splits off as
      the first piece. */
  lemma {:induction false} SplitPrefix(p: string, s: string, c: char)
    requires c !in p
    ensures Split(p + [c] + s, c) == [p] + Split(s, c)
    decreases |p|
  {
    var whole := p + [c] + s;
    if p == [] {
      assert whole[1..] == s;
    } else {
      assert whole[1..] == p[1..] + [c] + s;
      SplitPrefix(p[1..], s, c);
      assert [p[0]] + p[1..] == p;
    }
  }

  /** A string free of the separator is a single piece. */
  lemma {:induction false} SplitPlain(p: string, c: char)
    requires c !in p
    ensures Split(p, c) == [p]
    decreases |p|
  {
    if p != [] {
      SplitPlain(p[1..], c);
      assert [p[0]] + p[1..] == p;
    }
  }

  /** split inverts join when no part holds the separator. */
  lemma {:induction false} SplitJoin(parts: seq<string>, c: char)
    requires |parts| >= 1
    requires forall i :: 0 <= i < |parts| ==> c !in parts[i]
    ensures Split(Join([c], parts), c) == parts
    decreases |parts|
  {
    if |parts| == 1 {
      SplitPlain(parts[0], c);
    } else {
      SplitJoin(parts[1..], c);
      SplitPrefix(parts[0], Join([c], parts[1..]), c);
      assert [parts[0]] + parts[1..] == parts;
    }
  }

  /** Appending the separator to a join is the join of one more, empty, part. */
  lemma {:induction false} JoinAppendEmpty(sep: string, parts: seq<string>)
    requires |parts| >= 1
    ensures Join(sep, parts + [""]) == Join(sep, parts) + sep
    decreases |parts|
  {
    if |parts| == 1 {
      assert (parts + [""])[1..] == [""];
    } else {
      assert (parts + [""])[1..] == parts[1..] + [""];
      JoinAppendEmpty(sep, parts[1..]);
    }
  }
}
