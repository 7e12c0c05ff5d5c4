/** The handful of Python `str` operations the engine relies on, with
    Python's own semantics: `split()`, `split(sep)`, `strip()`, `title()`,
    `endswith`, decimal formatting of an int and `os.path.join`. */
module PyStr {

  /** `str.isspace()` for one character (also what `\s` matches in a
      `re` pattern over `str`). */
  predicate IsSpace(c: char) {
    var n := c as int;
    n == 0x20 || 0x09 <= n <= 0x0d || 0x1c <= n <= 0x1f || n == 0x85 || n == 0xa0
    || n == 0x1680 || 0x2000 <= n <= 0x200a || n == 0x2028 || n == 0x2029
    || n == 0x202f || n == 0x205f || n == 0x3000
  }

  predicate AllSpace(s: string) {
    forall i :: 0 <= i < |s| ==> IsSpace(s[i])
  }

  predicate NoSpace(s: string) {
    forall i :: 0 <= i < |s| ==> !IsSpace(s[i])
  }

  predicate IsUpper(c: char) { 'A' <= c <= 'Z' }
  predicate IsLower(c: char) { 'a' <= c <= 'z' }
  predicate IsCased(c: char) { IsUpper(c) || IsLower(c) }

  function ToUpper(c: char): char {
    if IsLower(c) then (c as int - 32) as char else c
  }

  function ToLower(c: char): char {
    if IsUpper(c) then (c as int + 32) as char else c
  }

  function Lower(s: string): (r: string)
    ensures |r| == |s|
    ensures forall i :: 0 <= i < |s| ==> r[i] == ToLower(s[i])
  {
    if s == [] then [] else [ToLower(s[0])] + Lower(s[1..])
  }

  // ---------------------------------------------------------------------
  // str.title()

  /** `title()` from a position whose previous character was (or was not)
      cased: a cased character after a cased one is lowered, any other one
      is raised; the flag follows the ORIGINAL character. */
  function TitleFrom(s: string, prevCased: bool): (r: string)
    ensures |r| == |s|
  {
    if s == [] then []
    else
      [if prevCased then ToLower(s[0]) else ToUpper(s[0])] + TitleFrom(s[1..], IsCased(s[0]))
  }

  function Title(s: string): string {
    TitleFrom(s, false)
  }

  /** `title()` ignores the case the text was written in. */
  lemma {:induction false} TitleIgnoresCase(s: string, prevCased: bool)
    ensures TitleFrom(Lower(s), prevCased) == TitleFrom(s, prevCased)
  {
    if s != [] {
      TitleIgnoresCase(s[1..], IsCased(s[0]));
      assert Lower(s)[1..] == Lower(s[1..]);
    }
  }

  /** `s.replace(c, "")`. */
  function Without(s: string, c: char): (r: string)
    ensures c !in r
    ensures |r| <= |s|
  {
    if s == [] then [] else (if s[0] == c then [] else [s[0]]) + Without(s[1..], c)
  }

  /** Each character of a `title()` is the original one raised or
      lowered. */
  lemma {:induction false} TitleAt(s: string, prevCased: bool, i: nat)
    requires i < |s|
    ensures TitleFrom(s, prevCased)[i] in {ToUpper(s[i]), ToLower(s[i])}
  {
    if i > 0 {
      TitleAt(s[1..], IsCased(s[0]), i - 1);
    }
  }

  /** `title()` of a concatenation: the second part starts from the last
      character of the first. */
  lemma {:induction false} TitleConcat(a: string, b: string, prevCased: bool)
    ensures TitleFrom(a + b, prevCased)
            == TitleFrom(a, prevCased) + TitleFrom(b, if a == [] then prevCased else IsCased(a[|a| - 1]))
  {
    if a == [] {
      assert a + b == b;
    } else {
      assert (a + b)[0] == a[0] && (a + b)[1..] == a[1..] + b;
      TitleConcat(a[1..], b, IsCased(a[0]));
    }
  }

  /** Inside a word, lower-case letters stay as they are. */
  lemma {:induction false} TitleLowerRun(w: string)
    requires forall i :: 0 <= i < |w| ==> IsLower(w[i])
    ensures TitleFrom(w, true) == w
  {
    if w != [] {
      TitleLowerRun(w[1..]);
      assert [w[0]] + w[1..] == w;
    }
  }

  /** A lower-case word comes out of `title()` capitalised. */
  lemma TitleLowerWord(w: string)
    requires w != [] && forall i :: 0 <= i < |w| ==> IsLower(w[i])
    ensures Title(w) == [ToUpper(w[0])] + w[1..]
  {
    TitleLowerRun(w[1..]);
  }

  function TitleEach(words: seq<string>): (r: seq<string>)
    ensures |r| == |words|
  {
    if words == [] then [] else [Title(words[0])] + TitleEach(words[1..])
  }

  /** `title()` of a snake_case name titles every word on its own: the
      underscore is not cased, so each word starts afresh. */
  lemma {:induction false} TitleSnake(words: seq<string>)
    ensures Title(JoinWith(words, '_')) == JoinWith(TitleEach(words), '_')
  {
    if |words| > 1 {
      var tail := JoinWith(words[1..], '_');
      TitleConcat(words[0] + ['_'], tail, false);
      TitleConcat(words[0], ['_'], false);
      TitleSnake(words[1..]);
      assert TitleEach(words)[1..] == TitleEach(words[1..]);
    }
  }

  lemma {:induction false} WithoutConcat(a: string, b: string, c: char)
    ensures Without(a + b, c) == Without(a, c) + Without(b, c)
  {
    if a == [] {
      assert a + b == b;
    } else {
      var head: string := if a[0] == c then [] else [a[0]];
      assert (a + b)[0] == a[0] && (a + b)[1..] == a[1..] + b;
      assert Without(a + b, c) == head + Without(a[1..] + b, c);
      assert Without(a, c) == head + Without(a[1..], c);
      WithoutConcat(a[1..], b, c);
      SeqAssoc(head, Without(a[1..], c), Without(b, c));
    }
  }

  lemma SeqAssoc(x: string, y: string, z: string)
    ensures x + (y + z) == (x + y) + z
  {
  }

  lemma {:induction false} WithoutAbsent(s: string, c: char)
    requires c !in s
    ensures Without(s, c) == s
  {
    if s != [] {
      WithoutAbsent(s[1..], c);
      assert [s[0]] + s[1..] == s;
    }
  }

  /** Dropping the separator from a join concatenates the pieces. */
  lemma {:induction false} WithoutJoin(words: seq<string>, c: char)
    requires forall i :: 0 <= i < |words| ==> c !in words[i]
    ensures Without(JoinWith(words, c), c) == Concat(words)
  {
    if |words| == 1 {
      WithoutAbsent(words[0], c);
      assert Concat(words) == words[0] + [];
    } else if |words| > 1 {
      var tail := JoinWith(words[1..], c);
      WithoutConcat(words[0] + [c], tail, c);
      WithoutConcat(words[0], [c], c);
      WithoutAbsent(words[0], c);
      WithoutJoin(words[1..], c);
    }
  }

  // ---------------------------------------------------------------------
  // str.split(sep) and its inverse, sep.join(parts)

  function JoinWith(parts: seq<string>, sep: char): string {
    if |parts| == 0 then []
    else if |parts| == 1 then parts[0]
    else parts[0] + [sep] + JoinWith(parts[1..], sep)
  }

  /** `s.split(sep)` for a one-character separator: always at least one
      piece, no piece contains the separator, and joining the pieces with
      it gives `s` back. There are two or more pieces exactly when the
      separator occurs in `s`. */
  function SplitOn(s: string, sep: char): (parts: seq<string>)
    ensures |parts| >= 1
    ensures forall i :: 0 <= i < |parts| ==> sep !in parts[i]
    ensures JoinWith(parts, sep) == s
    ensures |parts| == 1 <==> sep !in s
  {
    if s == [] then [[]]
    else
      var rest := SplitOn(s[1..], sep);
      if s[0] == sep then
        [[]] + rest
      else
        var parts := [[s[0]] + rest[0]] + rest[1..];
        assert |rest| > 1 ==> JoinWith(rest, sep) == rest[0] + [sep] + JoinWith(rest[1..], sep);
        assert parts[1..] == rest[1..];
        parts
  }

  /** Splitting a join gives the pieces back, when no piece holds the
      separator. */
  lemma {:induction false} SplitJoin(parts: seq<string>, sep: char)
    requires |parts| >= 1
    requires forall i :: 0 <= i < |parts| ==> sep !in parts[i]
    ensures SplitOn(JoinWith(parts, sep), sep) == parts
  {
    if |parts| == 1 {
      assert sep !in JoinWith(parts, sep);
    } else {
      SplitJoin(parts[1..], sep);
      SplitPrefix(parts[0], sep, JoinWith(parts[1..], sep));
      assert [parts[0]] + parts[1..] == parts;
    }
  }

  /** A piece without the separator, then the separator, then a tail:
      the piece comes first and the tail's pieces follow. */
  lemma {:induction false} SplitPrefix(p: string, sep: char, tail: string)
    requires sep !in p
    ensures SplitOn(p + [sep] + tail, sep) == [p] + SplitOn(tail, sep)
  {
    var s := p + [sep] + tail;
    if p == [] {
      assert s[0] == sep && s[1..] == tail;
    } else {
      assert s[0] == p[0] != sep;
      assert s[1..] == p[1..] + [sep] + tail;
      SplitPrefix(p[1..], sep, tail);
      var rest := SplitOn(s[1..], sep);
      assert rest == [p[1..]] + SplitOn(tail, sep);
      assert SplitOn(s, sep) == [[s[0]] + rest[0]] + rest[1..];
      assert [p[0]] + p[1..] == p;
    }
  }

  /** Splitting at one occurrence of the separator first: the pieces of
      each side, one after the other. */
  lemma {:induction false} SplitAround(a: string, sep: char, tail: string)
    ensures SplitOn(a + [sep] + tail, sep) == SplitOn(a, sep) + SplitOn(tail, sep)
  {
    var s := a + [sep] + tail;
    if a == [] {
      assert s == [] + [sep] + tail;
      SplitPrefix([], sep, tail);
    } else {
      assert s[1..] == a[1..] + [sep] + tail;
      SplitAround(a[1..], sep, tail);
      SplitSameHead(s, a, sep, SplitOn(a[1..], sep), SplitOn(tail, sep));
    }
  }

  /** Two strings with the same first character, whose remainders split
      into `pieces + ts` and `pieces`, split into `p + ts` and `p`. */
  lemma SplitSameHead(s: string, a: string, sep: char, pieces: seq<string>, ts: seq<string>)
    requires s != [] && a != [] && s[0] == a[0]
    requires SplitOn(a[1..], sep) == pieces && SplitOn(s[1..], sep) == pieces + ts
    ensures SplitOn(s, sep) == SplitOn(a, sep) + ts
  {
    if a[0] == sep {
      SplitSepHead(s, a, sep, pieces, ts);
    } else {
      SplitCharHead(s, a, sep, pieces, ts);
    }
  }

  lemma SplitSepHead(s: string, a: string, sep: char, pieces: seq<string>, ts: seq<string>)
    requires s != [] && a != [] && s[0] == a[0] == sep
    requires SplitOn(a[1..], sep) == pieces && SplitOn(s[1..], sep) == pieces + ts
    ensures SplitOn(s, sep) == SplitOn(a, sep) + ts
  {
    SplitConsSep(s, sep, pieces + ts);
    SplitConsSep(a, sep, pieces);
    EmptyPieceFirst(SplitOn(s, sep), SplitOn(a, sep), pieces, ts);
  }

  /** Unfolding `SplitOn` once when the first character is the
      separator. */
  lemma SplitConsSep(s: string, sep: char, rest: seq<string>)
    requires s != [] && s[0] == sep && rest == SplitOn(s[1..], sep)
    ensures SplitOn(s, sep) == [[]] + rest
  {
  }

  /** Sequence algebra for `SplitSepHead`. */
  lemma EmptyPieceFirst(x: seq<string>, y: seq<string>, pieces: seq<string>, ts: seq<string>)
    requires x == [[]] + (pieces + ts) && y == [[]] + pieces
    ensures x == y + ts
  {
    assert [[]] + (pieces + ts) == ([[]] + pieces) + ts;
  }

  lemma SplitCharHead(s: string, a: string, sep: char, pieces: seq<string>, ts: seq<string>)
    requires s != [] && a != [] && s[0] == a[0] != sep
    requires SplitOn(a[1..], sep) == pieces && SplitOn(s[1..], sep) == pieces + ts
    ensures SplitOn(s, sep) == SplitOn(a, sep) + ts
  {
    SplitCons(s, sep, pieces + ts);
    SplitCons(a, sep, pieces);
    FirstPieceGrows(SplitOn(s, sep), SplitOn(a, sep), a[0], pieces, ts);
  }

  /** Sequence algebra for `SplitCharHead`: extending the first piece
      commutes with appending the tail's pieces. */
  lemma FirstPieceGrows(x: seq<string>, y: seq<string>, c: char, pieces: seq<string>, ts: seq<string>)
    requires |pieces| >= 1
    requires x == [[c] + (pieces + ts)[0]] + (pieces + ts)[1..]
    requires y == [[c] + pieces[0]] + pieces[1..]
    ensures x == y + ts
  {
    var head := [c] + pieces[0];
    assert (pieces + ts)[0] == pieces[0] && (pieces + ts)[1..] == pieces[1..] + ts;
    assert [head] + (pieces[1..] + ts) == ([head] + pieces[1..]) + ts;
  }

  /** Unfolding `SplitOn` once when the first character is not the
      separator. */
  lemma SplitCons(s: string, sep: char, rest: seq<string>)
    requires s != [] && s[0] != sep && rest == SplitOn(s[1..], sep)
    ensures SplitOn(s, sep) == [[s[0]] + rest[0]] + rest[1..]
  {
  }

  /** One step of `SplitOn`, stated for use elsewhere. */
  lemma SplitStep(s: string, sep: char)
    requires s != []
    ensures s[0] == sep ==> SplitOn(s, sep) == [[]] + SplitOn(s[1..], sep)
    ensures s[0] != sep ==> SplitOn(s, sep) == [[s[0]] + SplitOn(s[1..], sep)[0]] + SplitOn(s[1..], sep)[1..]
  {
  }

  // ---------------------------------------------------------------------
  // str.split() with no argument

  function Concat(words: seq<string>): string {
    if words == [] then [] else words[0] + Concat(words[1..])
  }

  /** The characters of `s` that are not whitespace, in order. */
  function NonSpace(s: string): (r: string)
    ensures NoSpace(r)
  {
    if s == [] then [] else (if IsSpace(s[0]) then [] else [s[0]]) + NonSpace(s[1..])
  }

  /** `split()` scanning `s` with the word `cur` already started. */
  function WordsFrom(s: string, cur: string): (words: seq<string>)
    requires NoSpace(cur)
    ensures forall i :: 0 <= i < |words| ==> words[i] != [] && NoSpace(words[i])
    ensures Concat(words) == cur + NonSpace(s)
  {
    if s == [] then
      (if cur == [] then [] else ConsWord(cur, []); [cur])
    else if IsSpace(s[0]) then
      var rest := WordsFrom(s[1..], []);
      assert NonSpace(s) == NonSpace(s[1..]) by {
        assert NonSpace(s) == [] + NonSpace(s[1..]);
      }
      if cur == [] then rest else ConsWord(cur, rest); [cur] + rest
    else
      ExtendWord(cur, s[0]);
      var rest := WordsFrom(s[1..], cur + [s[0]]);
      assert cur + [s[0]] + NonSpace(s[1..]) == cur + NonSpace(s) by {
        assert NonSpace(s) == [s[0]] + NonSpace(s[1..]);
      }
      rest
  }

  /** Putting a finished word in front of the words that follow it. */
  lemma ConsWord(cur: string, rest: seq<string>)
    requires cur != [] && NoSpace(cur)
    requires forall i :: 0 <= i < |rest| ==> rest[i] != [] && NoSpace(rest[i])
    ensures forall i :: 0 <= i < |[cur] + rest| ==> ([cur] + rest)[i] != [] && NoSpace(([cur] + rest)[i])
    ensures Concat([cur] + rest) == cur + Concat(rest)
  {
    var ws := [cur] + rest;
    assert ws[0] == cur && ws[1..] == rest;
    forall i | 0 <= i < |ws| ensures ws[i] != [] && NoSpace(ws[i]) {
      if i > 0 {
        assert ws[i] == rest[i - 1];
      }
    }
  }

  /** A non-whitespace character extends the current word. */
  lemma ExtendWord(cur: string, c: char)
    requires NoSpace(cur) && !IsSpace(c)
    ensures NoSpace(cur + [c])
  {
    forall i | 0 <= i < |cur + [c]| ensures !IsSpace((cur + [c])[i]) {
      if i < |cur| {
        assert (cur + [c])[i] == cur[i];
      }
    }
  }

  /** `s.split()`: the maximal runs of non-whitespace characters. Every
      word is non-empty and free of whitespace, and together they are
      exactly the non-whitespace characters of `s`. */
  function SplitWhitespace(s: string): (words: seq<string>)
    ensures forall i :: 0 <= i < |words| ==> words[i] != [] && NoSpace(words[i])
    ensures Concat(words) == NonSpace(s)
  {
    WordsFrom(s, [])
  }

  /** A run of non-whitespace characters extends the current word. */
  lemma {:induction false} WordsFromRun(w: string, rest: string, cur: string)
    requires NoSpace(cur) && NoSpace(w)
    ensures NoSpace(cur + w)
    ensures WordsFrom(w + rest, cur) == WordsFrom(rest, cur + w)
  {
    if w == [] {
      assert w + rest == rest && cur + w == cur;
    } else {
      assert (w + rest)[0] == w[0];
      assert (w + rest)[1..] == w[1..] + rest;
      assert cur + [w[0]] + w[1..] == cur + w;
      WordsFromRun(w[1..], rest, cur + [w[0]]);
    }
  }

  /** `split()` undoes joining words with single spaces. */
  lemma {:induction false} SplitWhitespaceJoin(words: seq<string>)
    requires forall i :: 0 <= i < |words| ==> words[i] != [] && NoSpace(words[i])
    ensures SplitWhitespace(JoinWith(words, ' ')) == words
  {
    if |words| == 1 {
      WordsFromRun(words[0], [], []);
      assert words[0] + [] == words[0] && [] + words[0] == words[0];
    } else if |words| > 1 {
      var tail := JoinWith(words[1..], ' ');
      WordsFromRun(words[0], [' '] + tail, []);
      assert [] + words[0] == words[0];
      assert words[0] + [' '] + tail == words[0] + ([' '] + tail);
      assert ([' '] + tail)[1..] == tail;
      SplitWhitespaceJoin(words[1..]);
      assert [words[0]] + words[1..] == words;
    }
  }

  // ---------------------------------------------------------------------
  // str.strip()

  function LeadingSpaces(s: string): (n: nat)
    ensures n <= |s| && AllSpace(s[..n])
    ensures n == |s| || !IsSpace(s[n])
  {
    if s == [] || !IsSpace(s[0]) then 0
    else
      var k := LeadingSpaces(s[1..]);
      assert s[..k + 1] == [s[0]] + s[1..][..k];
      k + 1
  }

  function TrailingSpaces(s: string): (n: nat)
    ensures n <= |s| && AllSpace(s[|s| - n..])
    ensures n == |s| || !IsSpace(s[|s| - n - 1])
  {
    if s == [] || !IsSpace(s[|s| - 1]) then 0
    else
      var k := TrailingSpaces(s[..|s| - 1]);
      assert s[|s| - (k + 1)..] == s[..|s| - 1][|s| - 1 - k..] + [s[|s| - 1]];
      k + 1
  }

  /** `s.strip()`: `s` without its leading and trailing whitespace; the
      result neither starts nor ends with whitespace (StripBounds: it is a
      slice of `s` with only whitespace cut off). */
  function Strip(s: string): (r: string)
    ensures r == [] || (!IsSpace(r[0]) && !IsSpace(r[|r| - 1]))
    ensures |r| <= |s|
  {
    var i := LeadingSpaces(s);
    var t := s[i..];
    var j := |t| - TrailingSpaces(t);
    t[..j]
  }

  /** Whitespace around a text does not survive `strip()`. */
  lemma StripPadded(a: string, v: string, b: string)
    requires AllSpace(a) && AllSpace(b)
    ensures Strip(a + v + b) == Strip(v)
  {
    var i, j := StripBounds(v);
    StripOfPadded(a, v, b, i, j);
  }

  /** Padding a slice bounded by non-whitespace with whitespace strips
      back to the slice. */
  lemma StripOfPadded(a: string, v: string, b: string, i: nat, j: nat)
    requires AllSpace(a) && AllSpace(b)
    requires i <= j <= |v| && AllSpace(v[..i]) && AllSpace(v[j..])
    requires i == j || (!IsSpace(v[i]) && !IsSpace(v[j - 1]))
    ensures Strip(a + v + b) == v[i..j]
  {
    PaddedSlice(a, v, b, i, j);
    StripUnique(a + v + b, |a| + i, |a| + j);
  }

  /** The facts StripUnique needs about a slice of `v` once `v` is padded. */
  lemma PaddedSlice(a: string, v: string, b: string, i: nat, j: nat)
    requires AllSpace(a) && AllSpace(b)
    requires i <= j <= |v| && AllSpace(v[..i]) && AllSpace(v[j..])
    requires i == j || (!IsSpace(v[i]) && !IsSpace(v[j - 1]))
    ensures AllSpace((a + v + b)[..|a| + i]) && AllSpace((a + v + b)[|a| + j..])
    ensures i == j || (!IsSpace((a + v + b)[|a| + i]) && !IsSpace((a + v + b)[|a| + j - 1]))
    ensures (a + v + b)[|a| + i..|a| + j] == v[i..j]
  {
    var s := a + v + b;
    assert s[..|a| + i] == a + v[..i];
    AllSpaceConcat(a, v[..i]);
    assert s[|a| + j..] == v[j..] + b;
    AllSpaceConcat(v[j..], b);
  }

  /** Where `strip()` cuts: the result is a slice of the text, and all
      that is cut off on either side is whitespace. */
  lemma StripBounds(v: string) returns (i: nat, j: nat)
    ensures i <= j <= |v| && Strip(v) == v[i..j]
    ensures AllSpace(v[..i]) && AllSpace(v[j..])
    ensures i == j || (!IsSpace(v[i]) && !IsSpace(v[j - 1]))
  {
    i := LeadingSpaces(v);
    var t := v[i..];
    var n := TrailingSpaces(t);
    j := i + |t| - n;
    assert t[|t| - n..] == v[j..];
    assert t[..|t| - n] == v[i..j];
    if i < j {
      assert v[j - 1] == t[|t| - n - 1];
    }
  }

  lemma AllSpaceConcat(x: string, y: string)
    requires AllSpace(x) && AllSpace(y)
    ensures AllSpace(x + y)
  {
    forall k | 0 <= k < |x + y| ensures IsSpace((x + y)[k]) {
      if k >= |x| { assert (x + y)[k] == y[k - |x|]; }
    }
  }

  /** `strip()` gives the one slice that is bounded by non-whitespace and
      has only whitespace outside it. */
  lemma StripUnique(s: string, i: nat, j: nat)
    requires i <= j <= |s| && AllSpace(s[..i]) && AllSpace(s[j..])
    requires i == j || (!IsSpace(s[i]) && !IsSpace(s[j - 1]))
    ensures Strip(s) == s[i..j]
  {
    if i == j {
      assert AllSpace(s) by {
        forall k | 0 <= k < |s| ensures IsSpace(s[k]) {
          if k < i { assert s[..i][k] == s[k]; } else { assert s[j..][k - j] == s[k]; }
        }
      }
      StripBlank(s);
      assert s[i..j] == [];
    } else {
      StripCut(s, i, j);
    }
  }

  /** StripUnique for a slice that is not empty. */
  lemma StripCut(s: string, i: nat, j: nat)
    requires i < j <= |s| && AllSpace(s[..i]) && AllSpace(s[j..])
    requires !IsSpace(s[i]) && !IsSpace(s[j - 1])
    ensures Strip(s) == s[i..j]
  {
    var t := s[i..];
    assert LeadingSpaces(s) == i by { NoLeadingAfter(s, i); }
    assert TrailingSpaces(t) == |t| - (j - i) by {
      assert t[j - i..] == s[j..];
      NoTrailingBefore(t, j - i);
    }
    assert t[..j - i] == s[i..j];
  }

  /** A text of whitespace only strips to nothing. */
  lemma StripBlank(s: string)
    requires AllSpace(s)
    ensures Strip(s) == []
  {
    assert LeadingSpaces(s) == |s|;
  }

  lemma NoLeadingAfter(s: string, i: nat)
    requires i < |s| && AllSpace(s[..i]) && !IsSpace(s[i])
    ensures LeadingSpaces(s) == i
    decreases i
  {
    if i > 0 {
      assert IsSpace(s[..i][0]);
      assert s[1..][..i - 1] == s[..i][1..];
      NoLeadingAfter(s[1..], i - 1);
    }
  }

  lemma NoTrailingBefore(s: string, j: nat)
    requires 0 < j <= |s| && AllSpace(s[j..]) && !IsSpace(s[j - 1])
    ensures TrailingSpaces(s) == |s| - j
    decreases |s| - j
  {
    if j < |s| {
      assert IsSpace(s[j..][|s| - 1 - j]);
      assert s[..|s| - 1][j..] == s[j..][..|s| - 1 - j];
      NoTrailingBefore(s[..|s| - 1], j);
    }
  }

  // ---------------------------------------------------------------------
  // endswith, decimal formatting, os.path.join

  predicate EndsWith(s: string, suffix: string) {
    |suffix| <= |s| && s[|s| - |suffix|..] == suffix
  }

  function Digit(d: nat): char
    requires d < 10
    ensures '0' <= Digit(d) <= '9' && Digit(d) as int - '0' as int == d
  {
    (d + '0' as int) as char
  }

  /** The value of a string of decimal digits. */
  function DecimalValue(s: string): nat
    requires forall i :: 0 <= i < |s| ==> '0' <= s[i] <= '9'
  {
    if s == [] then 0 else 10 * DecimalValue(s[..|s| - 1]) + (s[|s| - 1] as int - '0' as int)
  }

  /** `str(n)` (what an f-string prints) for a natural number. */
  function NatToString(n: nat): (s: string)
    ensures |s| >= 1
    ensures forall i :: 0 <= i < |s| ==> '0' <= s[i] <= '9'
    ensures |s| > 1 ==> s[0] != '0'
  {
    if n < 10 then [Digit(n)] else NatToString(n / 10) + [Digit(n % 10)]
  }

  /** Reading the formatted number back gives the number. */
  lemma {:induction false} NatToStringValue(n: nat)
    ensures DecimalValue(NatToString(n)) == n
  {
    if n >= 10 {
      NatToStringValue(n / 10);
      var s := NatToString(n);
      assert s == NatToString(n / 10) + [Digit(n % 10)];
      assert s[..|s| - 1] == NatToString(n / 10);
      assert DecimalValue(s) == 10 * (n / 10) + n % 10;
    }
  }

  /** `os.path.join(base, name)` for a relative `name`. */
  function PathJoin(base: string, name: string): (p: string)
    ensures EndsWith(p, name)
  {
    if base == [] then name
    else if base[|base| - 1] == '/' then base + name
    else base + "/" + name
  }
}
