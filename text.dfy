/** String operations the Python code relies on, restricted to ASCII:
    str.lower(), str.split() with no separator, str.strip() with no
    argument, the `in` substring test, str.join and str() of an int. */
module Text {

  // ---------------------------------------------------------------- lower()

  /** ASCII case folding: 'A'..'Z' become 'a'..'z', every other character is kept. */
  function LowerChar(c: char): (l: char)
    ensures !('A' <= l <= 'Z')
    ensures !('A' <= c <= 'Z') ==> l == c
  {
    if 'A' <= c <= 'Z' then (c as int + 32) as char else c
  }

  function Lower(s: string): (r: string)
    ensures |r| == |s|
  {
    if s == [] then [] else [LowerChar(s[0])] + Lower(s[1..])
  }

  lemma {:induction false} LowerAt(s: string, i: nat)
    requires i < |s|
    ensures Lower(s)[i] == LowerChar(s[i])
  {
    if i > 0 {
      LowerAt(s[1..], i - 1);
    }
  }

  predicate NoUpper(s: string) {
    forall i :: 0 <= i < |s| ==> !('A' <= s[i] <= 'Z')
  }

  /** Lowering a string that has no upper-case letter changes nothing. */
  lemma {:induction false} LowerOfLower(s: string)
    requires NoUpper(s)
    ensures Lower(s) == s
  {
    if s != [] {
      assert NoUpper(s[1..]);
      LowerOfLower(s[1..]);
    }
  }

  /** Lowering an already lowered string changes nothing (lower() is idempotent). */
  lemma LowerIdempotent(s: string)
    ensures Lower(Lower(s)) == Lower(s)
  {
    forall i | 0 <= i < |s| ensures !('A' <= Lower(s)[i] <= 'Z') {
      LowerAt(s, i);
    }
    LowerOfLower(Lower(s));
  }

  /** A string whose characters lower one by one to those of t lowers to t. */
  lemma LowerByChars(s: string, t: string)
    requires |s| == |t|
    requires forall i :: 0 <= i < |s| ==> LowerChar(s[i]) == t[i]
    ensures Lower(s) == t
  {
    forall i | 0 <= i < |s| ensures Lower(s)[i] == t[i] {
      LowerAt(s, i);
    }
  }

  // ---------------------------------------------------------- whitespace

  /** The ASCII characters for which Python's str.isspace() holds:
      tab, line feed, vertical tab, form feed, carriage return,
      the four separators 0x1C..0x1F and the space. */
  predicate IsSpace(c: char) {
    c == ' ' || ('\t' <= c <= '\r') || ('\U{1C}' <= c <= '\U{1F}')
  }

  predicate NoSpace(s: string) {
    forall i :: 0 <= i < |s| ==> !IsSpace(s[i])
  }

  /** The leading run of non-space characters of s. */
  function Word(s: string): (w: string)
    ensures |w| <= |s| && w == s[..|w|]
    ensures NoSpace(w)
    ensures |w| < |s| ==> IsSpace(s[|w|])
    ensures s != [] && !IsSpace(s[0]) ==> w != []
  {
    if s == [] || IsSpace(s[0]) then [] else [s[0]] + Word(s[1..])
  }

  function DropSpaces(s: string): (t: string)
    ensures |t| <= |s| && t == s[|s| - |t|..]
    ensures t != [] ==> !IsSpace(t[0])
  {
    if s != [] && IsSpace(s[0]) then DropSpaces(s[1..]) else s
  }

  /** What DropSpaces removes is whitespace. */
  lemma {:induction false} DropSpacesDropped(s: string)
    ensures forall k :: 0 <= k < |s| - |DropSpaces(s)| ==> IsSpace(s[k])
  {
    if s != [] && IsSpace(s[0]) {
      DropSpacesDropped(s[1..]);
      assert forall k :: 1 <= k < |s| ==> s[k] == s[1..][k - 1];
    }
  }

  /** Non-empty words without whitespace. */
  predicate Words(ws: seq<string>) {
    forall i :: 0 <= i < |ws| ==> ws[i] != [] && NoSpace(ws[i])
  }

  lemma WordsCons(w: string, ws: seq<string>)
    requires w != [] && NoSpace(w) && Words(ws)
    ensures Words([w] + ws)
  {
    assert forall i :: 0 < i < |ws| + 1 ==> ([w] + ws)[i] == ws[i - 1];
  }

  /** Python's s.split(): the maximal runs of non-space characters, in order. */
  function Split(s: string): (ws: seq<string>)
    ensures Words(ws)
    decreases |s|
  {
    var t := DropSpaces(s);
    if t == [] then []
    else
      var w := Word(t);
      var rest := Split(t[|w|..]);
      WordsCons(w, rest);
      [w] + rest
  }

  /** s with every whitespace character removed. */
  function Unspaced(s: string): string {
    if s == [] then [] else (if IsSpace(s[0]) then [] else [s[0]]) + Unspaced(s[1..])
  }

  function Concat(ws: seq<string>): string {
    if ws == [] then [] else ws[0] + Concat(ws[1..])
  }

  lemma {:induction false} UnspacedAppend(a: string, b: string)
    ensures Unspaced(a + b) == Unspaced(a) + Unspaced(b)
  {
    if a == [] {
      assert a + b == b;
    } else {
      assert (a + b)[0] == a[0] && (a + b)[1..] == a[1..] + b;
      UnspacedAppend(a[1..], b);
    }
  }

  lemma {:induction false} UnspacedOfSpaces(s: string)
    requires forall k :: 0 <= k < |s| ==> IsSpace(s[k])
    ensures Unspaced(s) == []
  {
    if s != [] {
      UnspacedOfSpaces(s[1..]);
    }
  }

  lemma {:induction false} UnspacedOfWord(w: string)
    requires NoSpace(w)
    ensures Unspaced(w) == w
  {
    if w != [] {
      UnspacedOfWord(w[1..]);
    }
  }

  /** A word followed by whitespace is the leading word. */
  lemma {:induction false} WordBeforeSpace(w: string, r: string)
    requires NoSpace(w) && r != [] && IsSpace(r[0])
    ensures Word(w + r) == w
  {
    if w != [] {
      assert (w + r)[1..] == w[1..] + r;
      WordBeforeSpace(w[1..], r);
    }
  }

  /** split() loses only the whitespace: its words, concatenated, are s
      without its whitespace characters. */
  lemma ConcatCons(w: string, ws: seq<string>)
    ensures Concat([w] + ws) == w + Concat(ws)
  {
    assert ([w] + ws)[1..] == ws;
  }

  /** The words split() finds after dropping the leading whitespace and the
      first word. */
  lemma SplitUnfold(s: string)
    requires DropSpaces(s) != []
    ensures Split(s) == [Word(DropSpaces(s))] + Split(DropSpaces(s)[|Word(DropSpaces(s))|..])
  {
  }

  lemma {:induction false} SplitConcat(s: string)
    ensures Concat(Split(s)) == Unspaced(s)
    decreases |s|
  {
    var t := DropSpaces(s);
    var lead := s[..|s| - |t|];
    assert s == lead + t;
    DropSpacesDropped(s);
    UnspacedAppend(lead, t);
    UnspacedOfSpaces(lead);
    assert Unspaced(s) == Unspaced(t);
    if t != [] {
      var w := Word(t);
      var rest := t[|w|..];
      assert t == w + rest;
      UnspacedAppend(w, rest);
      UnspacedOfWord(w);
      SplitUnfold(s);
      ConcatCons(w, Split(rest));
      SplitConcat(rest);
    }
  }

  /** split() finds no word exactly when s is all whitespace. */
  lemma SplitEmpty(s: string)
    ensures Split(s) == [] <==> forall k :: 0 <= k < |s| ==> IsSpace(s[k])
  {
    var t := DropSpaces(s);
    DropSpacesDropped(s);
    assert t != [] ==> t[0] == s[|s| - |t|];
  }

  lemma SplitAfterSpace(c: char, s: string)
    requires IsSpace(c)
    ensures Split([c] + s) == Split(s)
  {
    assert ([c] + s)[1..] == s;
    assert DropSpaces([c] + s) == DropSpaces(s);
  }

  lemma SplitOfWord(w: string)
    requires w != [] && NoSpace(w)
    ensures Split(w) == [w]
  {
    assert DropSpaces(w) == w;
    assert Word(w) == w by {
      assert w[..|w|] == w;
    }
    SplitUnfold(w);
    assert w[|w|..] == [];
  }

  /** A word, a space and the rest split into the word and the rest's words. */
  lemma SplitWordSpace(w: string, j: string)
    requires w != [] && NoSpace(w)
    ensures Split(w + ([' '] + j)) == [w] + Split(j)
  {
    var x := w + ([' '] + j);
    assert x[0] == w[0];
    assert DropSpaces(x) == x;
    WordBeforeSpace(w, [' '] + j);
    SplitUnfold(x);
    assert x[|w|..] == [' '] + j;
    SplitAfterSpace(' ', j);
  }

  lemma SplitJoinCons(ws: seq<string>)
    requires |ws| > 1 && ws[0] != [] && NoSpace(ws[0])
    requires Split(Join(" ", ws[1..])) == ws[1..]
    ensures Split(Join(" ", ws)) == ws
  {
    JoinCons(" ", ws);
    assert " " == [' '];
    SplitWordSpace(ws[0], Join(" ", ws[1..]));
    assert ws == [ws[0]] + ws[1..];
  }

  /** split() undoes a join with single spaces of words without whitespace:
      each word is a maximal run of non-whitespace. */
  lemma {:induction false} SplitJoin(ws: seq<string>)
    requires Words(ws)
    ensures Split(Join(" ", ws)) == ws
  {
    if |ws| == 1 {
      SplitOfWord(ws[0]);
    } else if |ws| > 1 {
      SplitJoin(ws[1..]);
      SplitJoinCons(ws);
    }
  }

  function DropTrailingSpaces(s: string): (t: string)
    ensures |t| <= |s| && t == s[..|t|]
    ensures t != [] ==> !IsSpace(t[|t| - 1])
  {
    if s != [] && IsSpace(s[|s| - 1]) then DropTrailingSpaces(s[..|s| - 1]) else s
  }

  /** What DropTrailingSpaces removes is whitespace. */
  lemma {:induction false} DropTrailingSpacesDropped(s: string)
    ensures forall k :: |DropTrailingSpaces(s)| <= k < |s| ==> IsSpace(s[k])
  {
    if s != [] && IsSpace(s[|s| - 1]) {
      DropTrailingSpacesDropped(s[..|s| - 1]);
    }
  }

  /** Where strip() starts: after the leading whitespace run. */
  function StripStart(s: string): (i: nat)
    ensures i <= |s|
  {
    |s| - |DropSpaces(s)|
  }

  /** Where strip() ends: before the trailing whitespace run. */
  function StripEnd(s: string): (j: nat)
    ensures StripStart(s) <= j <= |s|
  {
    StripStart(s) + |DropTrailingSpaces(DropSpaces(s))|
  }

  /** Python's s.strip(): the string without its leading and trailing
      whitespace; StripSpec says which slice of s that is. */
  function Strip(s: string): (t: string)
    ensures t != [] ==> !IsSpace(t[0]) && !IsSpace(t[|t| - 1])
  {
    DropTrailingSpaces(DropSpaces(s))
  }

  /** A string that starts with a non-whitespace character keeps it. */
  lemma {:induction false} DropTrailingKeepsHead(s: string)
    requires s != [] && !IsSpace(s[0])
    ensures DropTrailingSpaces(s) != []
  {
    if |s| > 1 && IsSpace(s[|s| - 1]) {
      DropTrailingKeepsHead(s[..|s| - 1]);
    }
  }

  lemma StripSlice(s: string)
    ensures Strip(s) == s[StripStart(s)..StripEnd(s)]
  {
    var d := DropSpaces(s);
    var t := DropTrailingSpaces(d);
    var i := |s| - |d|;
    assert StripStart(s) == i && StripEnd(s) == i + |t| && Strip(s) == t;
    SliceOfSuffix(s, i, |t|);
  }

  lemma SliceOfSuffix<T>(s: seq<T>, i: nat, n: nat)
    requires i + n <= |s|
    ensures s[i..][..n] == s[i..i + n]
  {
  }

  lemma StripCutEnds(s: string)
    ensures forall k :: 0 <= k < StripStart(s) ==> IsSpace(s[k])
    ensures forall k :: StripEnd(s) <= k < |s| ==> IsSpace(s[k])
  {
    var d := DropSpaces(s);
    var t := DropTrailingSpaces(d);
    var i := |s| - |d|;
    DropSpacesDropped(s);
    DropTrailingSpacesDropped(d);
    forall k | i + |t| <= k < |s| ensures IsSpace(s[k]) {
      assert s[k] == d[k - i];
    }
  }

  lemma StripKeeps(s: string)
    ensures StripStart(s) < |s| ==> StripStart(s) < StripEnd(s)
  {
    if DropSpaces(s) != [] {
      DropTrailingKeepsHead(DropSpaces(s));
    }
  }

  /** strip() keeps the slice between the leading and the trailing
      whitespace runs: what it cuts off at either end is whitespace, and it
      keeps something whenever the input has a non-whitespace character. */
  lemma StripSpec(s: string)
    ensures Strip(s) == s[StripStart(s)..StripEnd(s)]
    ensures forall k :: 0 <= k < StripStart(s) ==> IsSpace(s[k])
    ensures forall k :: StripEnd(s) <= k < |s| ==> IsSpace(s[k])
    ensures StripStart(s) < |s| ==> StripStart(s) < StripEnd(s)
  {
    StripSlice(s);
    StripCutEnds(s);
    StripKeeps(s);
  }

  /** Whitespace runs at the ends, around a slice that neither starts nor
      ends with whitespace: that slice is the strip. */
  lemma StripCharacterised(s: string, i: nat, j: nat)
    requires i <= j <= |s|
    requires forall k :: 0 <= k < i ==> IsSpace(s[k])
    requires forall k :: j <= k < |s| ==> IsSpace(s[k])
    requires i < j ==> !IsSpace(s[i]) && !IsSpace(s[j - 1])
    ensures Strip(s) == s[i..j]
  {
    StripSpec(s);
  }

  /** A string without whitespace at either end is its own strip. */
  lemma StripTrimmed(s: string)
    requires s != [] ==> !IsSpace(s[0]) && !IsSpace(s[|s| - 1])
    ensures Strip(s) == s
  {
  }

  /** strip() is idempotent. */
  lemma StripIdempotent(s: string)
    ensures Strip(Strip(s)) == Strip(s)
  {
    StripTrimmed(Strip(s));
  }

  // ------------------------------------------------ prefixes and substrings

  predicate StartsWith(s: string, p: string) {
    |p| <= |s| && s[..|p|] == p
  }

  predicate EndsWith(s: string, p: string) {
    |p| <= |s| && s[|s| - |p|..] == p
  }

  predicate OccursAt(hay: string, needle: string, i: nat) {
    i + |needle| <= |hay| && hay[i..i + |needle|] == needle
  }

  /** Python's `needle in hay` on strings. */
  predicate Contains(hay: string, needle: string) {
    exists i :: 0 <= i <= |hay| - |needle| && OccursAt(hay, needle, i)
  }

  lemma ContainsAt(hay: string, needle: string, i: nat)
    requires OccursAt(hay, needle, i)
    ensures Contains(hay, needle)
  {
  }

  lemma ContainsItself(s: string)
    ensures Contains(s, s)
  {
    assert OccursAt(s, s, 0);
  }

  /** A string contains whatever its parts contain, and each part of a concatenation. */
  lemma ContainsInfix(a: string, n: string, b: string)
    ensures Contains(a + n + b, n)
  {
    assert OccursAt(a + n + b, n, |a|);
  }

  lemma ContainsStart(n: string, rest: string)
    ensures Contains(n + rest, n)
  {
    assert OccursAt(n + rest, n, 0);
  }

  lemma ContainsEnd(a: string, n: string)
    ensures Contains(a + n, n)
  {
    assert OccursAt(a + n, n, |a|);
  }

  lemma ContainsLeft(a: string, b: string, n: string)
    requires Contains(a, n)
    ensures Contains(a + b, n)
  {
    var i :| 0 <= i <= |a| - |n| && OccursAt(a, n, i);
    assert (a + b)[i..i + |n|] == a[i..i + |n|];
    assert OccursAt(a + b, n, i);
  }

  lemma ContainsRight(a: string, b: string, n: string)
    requires Contains(b, n)
    ensures Contains(a + b, n)
  {
    var i :| 0 <= i <= |b| - |n| && OccursAt(b, n, i);
    assert (a + b)[|a| + i..|a| + i + |n|] == b[i..i + |n|];
    assert OccursAt(a + b, n, |a| + i);
  }

  /** Python's any(k in text for k in keywords). */
  predicate MentionsAny(text: string, keywords: seq<string>) {
    exists k :: 0 <= k < |keywords| && Contains(text, keywords[k])
  }

  /** Containment is transitive. */
  lemma ContainsWithin(hay: string, mid: string, needle: string)
    requires Contains(hay, mid) && Contains(mid, needle)
    ensures Contains(hay, needle)
  {
    var i :| 0 <= i <= |hay| - |mid| && OccursAt(hay, mid, i);
    var j :| 0 <= j <= |mid| - |needle| && OccursAt(mid, needle, j);
    forall k | 0 <= k < |needle| ensures hay[i + j + k] == needle[k] {
      assert hay[i..i + |mid|][j + k] == mid[j + k];
      assert mid[j..j + |needle|][k] == mid[j + k];
    }
    assert hay[i + j..i + j + |needle|] == needle;
    assert OccursAt(hay, needle, i + j);
  }

  /** Every character of a contained string occurs in the containing one,
      so a needle with a character the haystack lacks is not contained. */
  lemma NotContainedLackingChar(hay: string, needle: string, k: nat)
    requires k < |needle| && needle[k] !in hay
    ensures !Contains(hay, needle)
  {
    forall i | 0 <= i <= |hay| - |needle| ensures !OccursAt(hay, needle, i) {
      assert hay[i + k] in hay;
    }
  }

  lemma OccursPrefix(hay: string, needle: string, i: nat, k: nat)
    requires k <= |needle|
    ensures OccursAt(hay, needle, i) ==> OccursAt(hay, needle[..k], i)
  {
    if OccursAt(hay, needle, i) {
      assert hay[i..i + k] == needle[..k];
    }
  }

  /** A needle whose first two characters never occur next to each other in the
      haystack is not contained. */
  lemma NotContainedLackingPair(hay: string, needle: string)
    requires |needle| >= 2
    requires forall i :: 0 <= i < |hay| - 1 ==> !OccursAt(hay, needle[..2], i)
    ensures !Contains(hay, needle)
  {
    forall i | 0 <= i <= |hay| - |needle| ensures !OccursAt(hay, needle, i) {
      OccursPrefix(hay, needle, i, 2);
    }
  }

  // -------------------------------------------------------------- join()

  /** Python's sep.join(parts). */
  function Join(sep: string, parts: seq<string>): string
  {
    if parts == [] then ""
    else if |parts| == 1 then parts[0]
    else parts[0] + sep + Join(sep, parts[1..])
  }

  lemma JoinCons(sep: string, parts: seq<string>)
    requires |parts| > 1
    ensures Join(sep, parts) == parts[0] + (sep + Join(sep, parts[1..]))
  {
  }

  lemma JoinStart(sep: string, parts: seq<string>)
    requires parts != [] && parts[0] != []
    ensures Join(sep, parts) != [] && Join(sep, parts)[0] == parts[0][0]
  {
  }

  /** Each part of a join is contained in the joined string. */
  lemma {:induction false} JoinContainsPart(sep: string, parts: seq<string>, k: nat)
    requires k < |parts|
    ensures Contains(Join(sep, parts), parts[k])
  {
    if |parts| == 1 {
      ContainsItself(parts[0]);
    } else if k == 0 {
      ContainsInfix("", parts[0], sep + Join(sep, parts[1..]));
      assert "" + parts[0] + (sep + Join(sep, parts[1..])) == Join(sep, parts);
    } else {
      JoinContainsPart(sep, parts[1..], k - 1);
      ContainsRight(parts[0] + sep, Join(sep, parts[1..]), parts[k]);
      assert (parts[0] + sep) + Join(sep, parts[1..]) == Join(sep, parts);
    }
  }

  /** A joined non-empty list starts with its first part and ends with its last. */
  lemma {:induction false} JoinEnds(sep: string, parts: seq<string>)
    requires parts != []
    ensures StartsWith(Join(sep, parts), parts[0])
    ensures EndsWith(Join(sep, parts), parts[|parts| - 1])
  {
    if |parts| > 1 {
      JoinEnds(sep, parts[1..]);
      var rest := Join(sep, parts[1..]);
      assert Join(sep, parts) == parts[0] + (sep + rest);
      assert (parts[0] + (sep + rest))[..|parts[0]|] == parts[0];
      assert (parts[0] + sep + rest)[|parts[0] + sep + rest| - |parts[|parts| - 1]|..]
          == rest[|rest| - |parts[|parts| - 1]|..];
    }
  }

  // ---------------------------------------------------------------- str(int)

  function DigitChar(d: nat): (c: char)
    requires d < 10
    ensures '0' <= c <= '9'
  {
    ('0' as int + d) as char
  }

  function NatToString(n: nat): (s: string)
    ensures s != []
  {
    if n < 10 then [DigitChar(n)] else NatToString(n / 10) + [DigitChar(n % 10)]
  }

  /** Python's str() of an int: its decimal digits, with a leading '-' when negative. */
  function IntToString(n: int): (s: string)
    ensures s != []
  {
    if n < 0 then "-" + NatToString(-n) else NatToString(n)
  }
}
