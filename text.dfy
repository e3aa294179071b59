/** The few JavaScript string operations the application relies on, over
    ASCII text: `trim`, `split` on one character, `toUpperCase` and
    `toLowerCase`, `includes`, `replace` with a one-character pattern, and
    the first and last index of a character. */
module Text {
  import opened Wrappers

  /** A nullable string is truthy in JavaScript when it is present and not empty. */
  predicate Truthy(o: Option<string>) {
    o.Some? && |o.value| > 0
  }

  /** A nullable string as `{x && <Text>{x}</Text>}` shows it: only when
      truthy. */
  function Shown(field: Option<string>): (r: Option<string>)
    ensures r.Some? <==> Truthy(field)
    ensures r.Some? ==> r == field
  {
    if Truthy(field) then field else None
  }

  /** `a || b` for a nullable string `a`. */
  function Or(a: Option<string>, b: string): (r: string)
    ensures Truthy(a) ==> r == a.value
    ensures !Truthy(a) ==> r == b
  {
    if Truthy(a) then a.value else b
  }

  /** The white space `trim` removes, restricted to ASCII. */
  predicate IsWhitespace(c: char) {
    c == ' ' || c == '\t' || c == '\n' || c == '\r' || c == '\U{B}' || c == '\U{C}'
  }

  predicate AllWhitespace(s: string) {
    forall i :: 0 <= i < |s| ==> IsWhitespace(s[i])
  }

  /** A string `trim` leaves as it is: empty, or not starting or ending in white space. */
  predicate IsTrimmed(s: string) {
    |s| == 0 || (!IsWhitespace(s[0]) && !IsWhitespace(s[|s| - 1]))
  }

  function TrimStart(s: string): (r: string)
    ensures |r| <= |s| && r == s[|s| - |r|..]
    ensures AllWhitespace(s[..|s| - |r|])
    ensures |r| == 0 || !IsWhitespace(r[0])
  {
    if |s| > 0 && IsWhitespace(s[0]) then TrimStart(s[1..]) else s
  }

  function TrimEnd(s: string): (r: string)
    ensures |r| <= |s| && r == s[..|r|]
    ensures AllWhitespace(s[|r|..])
    ensures |r| == 0 || !IsWhitespace(r[|r| - 1])
  {
    if |s| > 0 && IsWhitespace(s[|s| - 1]) then TrimEnd(s[..|s| - 1]) else s
  }

  lemma {:induction false} TrimStartOfWhitespace(s: string)
    ensures AllWhitespace(s) ==> |TrimStart(s)| == 0
  {
    if |s| > 0 && AllWhitespace(s) {
      TrimStartOfWhitespace(s[1..]);
    }
  }

  /** `String.prototype.trim`. */
  function Trim(s: string): (r: string)
    ensures IsTrimmed(r)
    ensures |r| <= |s|
    ensures |r| == 0 <==> AllWhitespace(s)
  {
    TrimFacts(s);
    TrimEnd(TrimStart(s))
  }

  lemma TrimFacts(s: string)
    ensures var t := TrimEnd(TrimStart(s));
      IsTrimmed(t) && |t| <= |s| && (|t| == 0 <==> AllWhitespace(s))
  {
    var u := TrimStart(s);
    var t := TrimEnd(u);
    if |t| > 0 {
      assert t[0] == u[0];
    } else {
      assert u[|t|..] == u;
      SplitAt(s, |s| - |u|);
      AllWhitespaceConcat(s[..|s| - |u|], u);
    }
    TrimStartOfWhitespace(s);
  }

  /** Trimming splits a string into white space, its trimmed core, and white space. */
  lemma TrimDecompose(s: string) returns (p: string, q: string)
    ensures s == p + Trim(s) + q
    ensures AllWhitespace(p) && AllWhitespace(q)
  {
    var u := TrimStart(s);
    var t := TrimEnd(u);
    assert Trim(s) == t;
    p, q := s[..|s| - |u|], u[|t|..];
    SplitAt(s, |s| - |u|);
    SplitAt(u, |t|);
    Associative(p, t, q);
  }

  lemma Associative(a: string, b: string, c: string)
    ensures a + (b + c) == a + b + c
  {
  }

  lemma SplitAt(s: string, k: nat)
    requires k <= |s|
    ensures s == s[..k] + s[k..]
  {
  }

  lemma {:induction false} TrimStartOfPadded(w: string, m: string)
    requires AllWhitespace(w)
    requires |m| == 0 || !IsWhitespace(m[0])
    ensures TrimStart(w + m) == m
    decreases |w|
  {
    if |w| > 0 {
      assert (w + m)[1..] == w[1..] + m;
      TrimStartOfPadded(w[1..], m);
    }
  }

  lemma {:induction false} TrimEndOfPadded(m: string, w: string)
    requires AllWhitespace(w)
    requires |m| == 0 || !IsWhitespace(m[|m| - 1])
    ensures TrimEnd(m + w) == m
    decreases |w|
  {
    if |w| > 0 {
      assert (m + w)[..|m + w| - 1] == m + w[..|w| - 1];
      TrimEndOfPadded(m, w[..|w| - 1]);
    }
  }

  /** A trimmed string surrounded by white space trims back to itself. */
  lemma TrimOfTrimmedPadded(w1: string, m: string, w2: string)
    requires AllWhitespace(w1) && AllWhitespace(w2) && IsTrimmed(m)
    ensures Trim(w1 + m + w2) == m
  {
    if |m| == 0 {
      assert w1 + m + w2 == w1 + w2;
      assert AllWhitespace(w1 + w2);
    } else {
      assert w1 + m + w2 == w1 + (m + w2);
      TrimStartOfPadded(w1, m + w2);
      TrimEndOfPadded(m, w2);
    }
  }

  /** `trim` leaves a trimmed string as it is. */
  lemma TrimOfTrimmed(m: string)
    requires IsTrimmed(m)
    ensures Trim(m) == m
  {
    TrimOfTrimmedPadded([], m, []);
    assert [] + m + [] == m;
  }

  lemma AllWhitespaceConcat(a: string, b: string)
    requires AllWhitespace(a) && AllWhitespace(b)
    ensures AllWhitespace(a + b)
  {
    forall i | 0 <= i < |a + b| ensures IsWhitespace((a + b)[i]) {
      if i >= |a| { assert (a + b)[i] == b[i - |a|]; }
    }
  }

  /** Leading and trailing white space never changes what `trim` returns. */
  lemma TrimIgnoresPadding(w1: string, s: string, w2: string)
    requires AllWhitespace(w1) && AllWhitespace(w2)
    ensures Trim(w1 + s + w2) == Trim(s)
  {
    var p, q := TrimDecompose(s);
    var m := Trim(s);
    var a, b := w1 + p, q + w2;
    AllWhitespaceConcat(w1, p);
    AllWhitespaceConcat(q, w2);
    ConcatRegroup(w1, s, w2, p, m, q);
    TrimOfTrimmedPadded(a, m, b);
  }

  lemma ConcatRegroup(w1: string, s: string, w2: string, p: string, m: string, q: string)
    requires s == p + m + q
    ensures w1 + s + w2 == (w1 + p) + m + (q + w2)
  {
  }

  // ASCII case maps; every other character is left alone.

  function LowerChar(c: char): (r: char)
    ensures !('A' <= r <= 'Z')
    ensures 'A' <= c <= 'Z' || r == c
  {
    if 'A' <= c <= 'Z' then (c as int + 32) as char else c
  }

  function UpperChar(c: char): (r: char)
    ensures !('a' <= r <= 'z')
    ensures 'a' <= c <= 'z' || r == c
  {
    if 'a' <= c <= 'z' then (c as int - 32) as char else c
  }

  /** `String.prototype.toLowerCase`, character by character. */
  function ToLower(s: string): (r: string)
    ensures |r| == |s|
    ensures forall i :: 0 <= i < |s| ==> r[i] == LowerChar(s[i])
  {
    seq(|s|, i requires 0 <= i < |s| => LowerChar(s[i]))
  }

  /** `String.prototype.toUpperCase`, character by character. */
  function ToUpper(s: string): (r: string)
    ensures |r| == |s|
    ensures forall i :: 0 <= i < |s| ==> r[i] == UpperChar(s[i])
  {
    seq(|s|, i requires 0 <= i < |s| => UpperChar(s[i]))
  }

  /** Lower-casing forgets what upper-casing did. */
  lemma ToLowerOfToUpper(s: string)
    ensures ToLower(ToUpper(s)) == ToLower(s)
  {
  }

  lemma ToLowerIdempotent(s: string)
    ensures ToLower(ToLower(s)) == ToLower(s)
  {
  }

  /** The first position of `c` in `s` (`indexOf`). */
  function IndexOf(s: string, c: char): (r: Option<nat>)
    ensures r.None? <==> c !in s
    ensures r.Some? ==> r.value < |s| && s[r.value] == c &&
                        forall j :: 0 <= j < r.value ==> s[j] != c
  {
    if |s| == 0 then None
    else if s[0] == c then Some(0)
    else match IndexOf(s[1..], c)
      case None => None
      case Some(k) => Some(k + 1)
  }

  /** The last position of `c` in `s` (`lastIndexOf`). */
  function LastIndexOf(s: string, c: char): (r: Option<nat>)
    ensures r.None? <==> c !in s
    ensures r.Some? ==> r.value < |s| && s[r.value] == c &&
                        forall j :: r.value < j < |s| ==> s[j] != c
  {
    if |s| == 0 then None
    else if s[|s| - 1] == c then Some(|s| - 1)
    else
      LastIndexOf(s[..|s| - 1], c)
  }

  /** `s.replace(from, to)` with one-character strings: only the FIRST
      occurrence of `from` is replaced. */
  function ReplaceFirst(s: string, from: char, to: char): (r: string)
    ensures |r| == |s|
    ensures forall i :: 0 <= i < |s| ==>
      r[i] == (if s[i] == from && forall j :: 0 <= j < i ==> s[j] != from then to else s[i])
  {
    match IndexOf(s, from)
    case None => s
    case Some(k) => s[k := to]
  }

  /** `needle` occurs in `hay` at offset `i`. */
  ghost predicate OccursAt(hay: string, needle: string, i: int) {
    0 <= i && i + |needle| <= |hay| && hay[i..i + |needle|] == needle
  }

  /** `String.prototype.includes`. */
  function Includes(hay: string, needle: string): (r: bool)
    ensures r <==> exists i :: OccursAt(hay, needle, i)
    decreases |hay|
  {
    if |needle| <= |hay| && hay[..|needle|] == needle then
      assert OccursAt(hay, needle, 0);
      true
    else if |hay| == 0 then
      false
    else
      IncludesStep(hay, needle);
      Includes(hay[1..], needle)
  }

  /** Past offset 0, the occurrences in `hay` are those in its tail, shifted by one. */
  lemma IncludesStep(hay: string, needle: string)
    requires |hay| > 0 && !OccursAt(hay, needle, 0)
    ensures (exists i :: OccursAt(hay[1..], needle, i)) <==> (exists i :: OccursAt(hay, needle, i))
  {
    if exists i :: OccursAt(hay[1..], needle, i) {
      var i :| OccursAt(hay[1..], needle, i);
      OccursShift(hay, needle, i);
    }
    if exists i :: OccursAt(hay, needle, i) {
      var i :| OccursAt(hay, needle, i);
      OccursShift(hay, needle, i - 1);
    }
  }

  lemma OccursShift(hay: string, needle: string, i: int)
    requires |hay| > 0 && 0 <= i
    ensures OccursAt(hay[1..], needle, i) <==> OccursAt(hay, needle, i + 1)
  {
    if i + |needle| <= |hay[1..]| {
      assert hay[1..][i..i + |needle|] == hay[i + 1..i + 1 + |needle|];
    }
  }

  /** `parts.join(sep)`: the inverse of `Split`. */
  function Join(parts: seq<string>, sep: char): string {
    if |parts| == 0 then ""
    else if |parts| == 1 then parts[0]
    else parts[0] + [sep] + Join(parts[1..], sep)
  }

  /** `s.split(sep)` with a one-character separator. It is never empty,
      and it is a single piece exactly when `s` holds no separator; see
      `JoinSplit` and `SplitJoin` for how it inverts `Join`. */
  function Split(s: string, sep: char): (parts: seq<string>)
    ensures |parts| >= 1
    ensures |parts| == 1 <==> sep !in s
    decreases |s|
  {
    match IndexOf(s, sep)
    case None => [s]
    case Some(k) => [s[..k]] + Split(s[k + 1..], sep)
  }

  /** Joining the pieces gives `s` back. */
  lemma {:induction false} JoinSplit(s: string, sep: char)
    ensures Join(Split(s, sep), sep) == s
    decreases |s|
  {
    var first := IndexOf(s, sep);
    if first.None? {
      SplitOfFree(s, sep);
    } else {
      var k := first.value;
      JoinSplit(s[k + 1..], sep);
      SplitUnfold(s, sep, k);
      JoinCons(s[..k], Split(s[k + 1..], sep), sep);
      Around(s, k);
    }
  }

  /** One step of `Split`: the piece before the first separator, then the
      pieces of what follows it. */
  lemma SplitUnfold(s: string, sep: char, k: nat)
    requires IndexOf(s, sep) == Some(k)
    ensures Split(s, sep) == [s[..k]] + Split(s[k + 1..], sep)
  {
  }

  /** One step of `Join` on a list of at least two pieces. */
  lemma JoinCons(a: string, rest: seq<string>, sep: char)
    requires |rest| >= 1
    ensures Join([a] + rest, sep) == a + [sep] + Join(rest, sep)
  {
    assert ([a] + rest)[1..] == rest;
  }

  lemma Around(s: string, k: nat)
    requires k < |s|
    ensures s == s[..k] + [s[k]] + s[k + 1..]
  {
  }

  /** Where the first occurrence is. */
  lemma IndexOfAt(s: string, c: char, k: nat)
    requires k < |s| && s[k] == c
    requires forall j :: 0 <= j < k ==> s[j] != c
    ensures IndexOf(s, c) == Some(k)
  {
    assert c in s by { assert s[k] == c; }
    var i := IndexOf(s, c).value;
    assert s[i] == c;
  }

  /** A prefix before the first occurrence holds no occurrence. */
  lemma NotInPrefix(s: string, c: char, k: nat)
    requires k <= |s|
    requires forall j :: 0 <= j < k ==> s[j] != c
    ensures c !in s[..k]
  {
    forall j | 0 <= j < k ensures s[..k][j] != c {
      assert s[..k][j] == s[j];
    }
  }

  /** No piece holds the separator. */
  lemma {:induction false} SplitPieceFree(s: string, sep: char, i: nat)
    requires i < |Split(s, sep)|
    ensures sep !in Split(s, sep)[i]
    decreases |s|
  {
    var first := IndexOf(s, sep);
    if first.None? {
      SplitOfFree(s, sep);
    } else if i == 0 {
      FirstPieceFree(s, sep, first.value);
    } else {
      var k := first.value;
      SplitUnfold(s, sep, k);
      SplitPieceFree(s[k + 1..], sep, i - 1);
    }
  }

  lemma SplitOfFree(s: string, sep: char)
    requires IndexOf(s, sep).None?
    ensures Split(s, sep) == [s] && sep !in s
  {
  }

  lemma FirstPieceFree(s: string, sep: char, k: nat)
    requires IndexOf(s, sep) == Some(k)
    ensures sep !in Split(s, sep)[0]
  {
    SplitUnfold(s, sep, k);
    NotInPrefix(s, sep, k);
  }

  /** Splitting what `Join` built gives the pieces back. */
  lemma {:induction false} SplitJoin(parts: seq<string>, sep: char)
    requires |parts| >= 1
    requires forall k :: 0 <= k < |parts| ==> sep !in parts[k]
    ensures Split(Join(parts, sep), sep) == parts
  {
    if |parts| == 1 {
      assert Join(parts, sep) == parts[0];
    } else {
      var a, rest := parts[0], parts[1..];
      assert parts == [a] + rest;
      var s := Join(parts, sep);
      JoinCons(a, rest, sep);
      AfterFirstPiece(a, Join(rest, sep), sep);
      SplitUnfold(s, sep, |a|);
      SplitJoin(rest, sep);
    }
  }

  /** In `a + [sep] + b` with `a` free of the separator, the first separator
      is the one after `a`, and what follows it is `b`. */
  lemma AfterFirstPiece(a: string, b: string, sep: char)
    requires sep !in a
    ensures var s := a + [sep] + b;
      IndexOf(s, sep) == Some(|a|) && s[..|a|] == a && s[|a| + 1..] == b
  {
    var s := a + [sep] + b;
    forall j | 0 <= j < |a| ensures s[j] != sep {
      assert s[j] == a[j];
    }
    IndexOfAt(s, sep, |a|);
    assert s[..|a|] == a;
    assert s[|a| + 1..] == b;
  }

  /** A string without the separator is a single piece. */
  lemma SplitWithoutSeparator(s: string, sep: char)
    requires LastIndexOf(s, sep).None?
    ensures Split(s, sep) == [s]
  {
    assert IndexOf(s, sep).None?;
  }

  /** The first piece is what precedes the first separator. */
  lemma SplitFirst(s: string, sep: char)
    ensures Split(s, sep)[0] == match IndexOf(s, sep) case None => s case Some(k) => s[..k]
  {
  }

  lemma {:induction false} JoinLast(parts: seq<string>, sep: char)
    requires |parts| >= 2
    ensures Join(parts, sep) == Join(parts[..|parts| - 1], sep) + [sep] + parts[|parts| - 1]
    decreases |parts|
  {
    if |parts| > 2 {
      JoinLast(parts[1..], sep);
      assert parts[1..][..|parts| - 2] == parts[..|parts| - 1][1..];
    }
  }

  /** The last piece is what follows the last separator. */
  lemma SplitLast(s: string, sep: char)
    requires LastIndexOf(s, sep).Some?
    ensures Split(s, sep)[|Split(s, sep)| - 1] == s[LastIndexOf(s, sep).value + 1..]
  {
    SeveralPieces(s, sep);
    LastPiece(s, sep, Split(s, sep));
  }

  lemma SeveralPieces(s: string, sep: char)
    requires LastIndexOf(s, sep).Some?
    ensures |Split(s, sep)| >= 2
  {
    assert sep in s;
  }

  lemma LastPiece(s: string, sep: char, parts: seq<string>)
    requires parts == Split(s, sep) && |parts| >= 2
    ensures LastIndexOf(s, sep).Some?
    ensures parts[|parts| - 1] == s[LastIndexOf(s, sep).value + 1..]
  {
    var n := |parts|;
    var front, last := Join(parts[..n - 1], sep), parts[n - 1];
    assert s == front + [sep] + last by {
      JoinSplit(s, sep);
      JoinLast(parts, sep);
    }
    assert sep !in last by {
      SplitPieceFree(s, sep, n - 1);
    }
    LastAfterSeparator(front, last, sep);
  }

  lemma LastAfterSeparator(front: string, last: string, c: char)
    requires c !in last
    ensures var s := front + [c] + last;
      LastIndexOf(s, c) == Some(|front|) && s[|front| + 1..] == last
  {
    var s := front + [c] + last;
    assert s[|front|] == c;
    assert s[|front| + 1..] == last;
    forall j | |front| < j < |s| ensures s[j] != c {
      assert s[j] == last[j - |front| - 1];
    }
    LastIndexUnique(s, c, |front|, LastIndexOf(s, c).value);
  }

  lemma LastIndexUnique(s: string, c: char, i: nat, j: nat)
    requires i < |s| && s[i] == c && forall k :: i < k < |s| ==> s[k] != c
    requires j < |s| && s[j] == c && forall k :: j < k < |s| ==> s[k] != c
    ensures i == j
  {
  }
}
