/** String operations the page scripts rely on: `String.prototype.trim`,
  * `String.prototype.split` with a one-character separator, and the course
  * id read from the page's URL path. */
module Text {
  import opened Wrappers
  import opened Seqs

  /** The code points ECMAScript counts as WhiteSpace or LineTerminator:
    * exactly the characters `trim` removes. */
  predicate IsJsSpace(c: char) {
    || c == '\t' || c == '\n' || c == '\U{B}' || c == '\U{C}' || c == '\r' || c == ' '
    || c == '\U{A0}' || c == '\U{1680}' || ('\U{2000}' <= c <= '\U{200A}')
    || c == '\U{2028}' || c == '\U{2029}' || c == '\U{202F}' || c == '\U{205F}'
    || c == '\U{3000}' || c == '\U{FEFF}'
  }

  /** Every character of `s` is whitespace (vacuously so for ""). */
  predicate IsBlank(s: string) {
    forall i :: 0 <= i < |s| ==> IsJsSpace(s[i])
  }

  /** `s` with its leading whitespace removed: a suffix of `s`. */
  function TrimStart(s: string): (r: string)
    ensures |r| <= |s| && r == s[|s| - |r|..]
    ensures IsBlank(s[..|s| - |r|])
    ensures r == [] || !IsJsSpace(r[0])
  {
    if s != [] && IsJsSpace(s[0]) then TrimStart(s[1..]) else s
  }

  /** `s` with its trailing whitespace removed: a prefix of `s`. */
  function TrimEnd(s: string): (r: string)
    ensures |r| <= |s| && r == s[..|r|]
    ensures IsBlank(s[|r|..])
    ensures r == [] || !IsJsSpace(r[|r| - 1])
  {
    if s != [] && IsJsSpace(s[|s| - 1]) then TrimEnd(s[..|s| - 1]) else s
  }

  /** `s.trim()`: the text between the leading and the trailing whitespace.
    * It is empty exactly when `s` is blank, and otherwise neither starts nor
    * ends with whitespace. */
  function Trim(s: string): (r: string)
    ensures |r| <= |TrimStart(s)| && r == TrimStart(s)[..|r|] && IsBlank(TrimStart(s)[|r|..])
    ensures r == [] <==> IsBlank(s)
    ensures r != [] ==> !IsJsSpace(r[0]) && !IsJsSpace(r[|r| - 1])
  {
    var t := TrimStart(s);
    var r := TrimEnd(t);
    TrimParts(s, t, r);
    r
  }

  /** TrimStart leaves nothing exactly when `s` is blank, and TrimEnd of a
    * text that starts with a non-space character keeps that character. */
  lemma TrimParts(s: string, t: string, r: string)
    requires t == TrimStart(s) && r == TrimEnd(t)
    ensures IsBlank(s) <==> t == []
    ensures r == [] <==> t == []
    ensures r != [] ==> r[0] == t[0] && r[|r| - 1] == t[|r| - 1]
  {
    if t == [] {
      assert s[..|s|] == s;
    } else {
      assert s[|s| - |t|] == t[0];
    }
  }

  /** A concatenation is blank exactly when both sides are. */
  lemma BlankConcat(a: string, b: string)
    ensures IsBlank(a + b) <==> IsBlank(a) && IsBlank(b)
  {
    if IsBlank(a) && IsBlank(b) {
      forall i | 0 <= i < |a + b| ensures IsJsSpace((a + b)[i]) {
        if i >= |a| { assert (a + b)[i] == b[i - |a|]; }
      }
    }
    if IsBlank(a + b) {
      forall i | 0 <= i < |a| ensures IsJsSpace(a[i]) {
        assert (a + b)[i] == a[i];
      }
      forall i | 0 <= i < |b| ensures IsJsSpace(b[i]) {
        assert (a + b)[|a| + i] == b[i];
      }
    }
  }

  lemma {:induction false} TrimStartSkipsBlank(a: string, m: string)
    requires IsBlank(a) && (m == [] || !IsJsSpace(m[0]))
    ensures TrimStart(a + m) == m
    decreases |a|
  {
    if a != [] {
      assert (a + m)[1..] == a[1..] + m;
      TrimStartSkipsBlank(a[1..], m);
    }
  }

  lemma {:induction false} TrimEndSkipsBlank(m: string, b: string)
    requires IsBlank(b) && (m == [] || !IsJsSpace(m[|m| - 1]))
    ensures TrimEnd(m + b) == m
    decreases |b|
  {
    if b != [] {
      assert (m + b)[..|m + b| - 1] == m + b[..|b| - 1];
      TrimEndSkipsBlank(m, b[..|b| - 1]);
    }
  }

  /** Trimming keeps exactly the text between surrounding whitespace: any
    * text that neither starts nor ends with whitespace, padded on both sides
    * with whitespace, trims back to itself. */
  lemma TrimRemovesPadding(a: string, m: string, b: string)
    requires IsBlank(a) && IsBlank(b)
    requires m == [] || (!IsJsSpace(m[0]) && !IsJsSpace(m[|m| - 1]))
    ensures Trim(a + m + b) == m
  {
    if m == [] {
      assert a + m + b == a + b;
      BlankConcat(a, b);
    } else {
      assert a + m + b == a + (m + b);
      TrimStartSkipsBlank(a, m + b);
      TrimEndSkipsBlank(m, b);
    }
  }

  /** Trimming twice is trimming once. */
  lemma TrimIdempotent(s: string)
    ensures Trim(Trim(s)) == Trim(s)
  {
    var r := Trim(s);
    assert r == [] + r + [];
    TrimRemovesPadding([], r, []);
  }

  /** `s.split(sep)`: the maximal runs of `s` between occurrences of `sep`,
    * in order; there is always at least one (possibly empty) part. */
  function Split(s: string, sep: char): (parts: seq<string>)
    ensures |parts| >= 1
    ensures forall i :: 0 <= i < |parts| ==> sep !in parts[i]
    decreases |s|
  {
    match FirstIndexOf(s, sep)
    case None => [s]
    case Some(i) => [s[..i]] + Split(s[i + 1..], sep)
  }

  /** `parts.join(sep)`. */
  function Join(parts: seq<string>, sep: char): string
    requires |parts| >= 1
  {
    if |parts| == 1 then parts[0] else parts[0] + [sep] + Join(parts[1..], sep)
  }

  /** Joining the parts of a split gives back the original string. */
  lemma {:induction false} JoinSplit(s: string, sep: char)
    ensures Join(Split(s, sep), sep) == s
    decreases |s|
  {
    match FirstIndexOf(s, sep)
    case None =>
    case Some(i) =>
      var rest := Split(s[i + 1..], sep);
      assert Split(s, sep) == [s[..i]] + rest;
      assert ([s[..i]] + rest)[1..] == rest;
      JoinSplit(s[i + 1..], sep);
      assert s == s[..i] + [sep] + s[i + 1..];
  }

  /** Splitting a join of separator-free parts gives back the parts. */
  lemma {:induction false} SplitJoin(parts: seq<string>, sep: char)
    requires |parts| >= 1
    requires forall i :: 0 <= i < |parts| ==> sep !in parts[i]
    ensures Split(Join(parts, sep), sep) == parts
    decreases |parts|
  {
    if |parts| == 1 {
      assert FirstIndexOf(parts[0], sep) == None;
    } else {
      var s := Join(parts, sep);
      var p := parts[0];
      assert s == p + [sep] + Join(parts[1..], sep);
      assert s[..|p|] == p;
      FirstIndexOfUnique(s, sep, |p|);
      assert s[|p| + 1..] == Join(parts[1..], sep);
      SplitJoin(parts[1..], sep);
    }
  }

  /** One step of Split at a known first separator. */
  lemma SplitStep(s: string, sep: char, i: nat)
    requires FirstIndexOf(s, sep) == Some(i)
    ensures Split(s, sep) == [s[..i]] + Split(s[i + 1..], sep)
  {
  }

  /** Splitting `s`, which is a separator-free `p`, `sep` and `q`, gives `p`
    * followed by the parts of `q`. */
  lemma SplitAtFirst(p: string, sep: char, q: string, s: string)
    requires sep !in p && s == p + [sep] + q
    ensures Split(s, sep) == [p] + Split(q, sep)
  {
    assert s[..|p|] == p;
    FirstIndexOfUnique(s, sep, |p|);
    SplitStep(s, sep, |p|);
    assert s[|p| + 1..] == q;
  }

  /** Splitting at a separator splits the two sides independently. */
  lemma {:induction false} SplitAround(p: string, sep: char, q: string)
    ensures Split(p + [sep] + q, sep) == Split(p, sep) + Split(q, sep)
    decreases |p|
  {
    if sep !in p {
      SplitAtFirst(p, sep, q, p + [sep] + q);
      assert Split(p, sep) == [p];
    } else {
      var head, tail := SplitFirst(p, sep);
      SplitAround(tail, sep, q);
      SplitAroundStep(head, tail, p, sep, q);
    }
  }

  /** A text holding `sep` is the separator-free text before its first
    * occurrence, `sep`, and the rest. */
  lemma SplitFirst(p: string, sep: char) returns (head: string, tail: string)
    requires sep in p
    ensures sep !in head && p == head + [sep] + tail && |tail| < |p|
  {
    var i := FirstIndexOf(p, sep).value;
    head, tail := p[..i], p[i + 1..];
    assert p == head + [sep] + tail;
  }

  /** The inductive step of SplitAround, for `p` = head, `sep`, tail. */
  lemma SplitAroundStep(head: string, tail: string, p: string, sep: char, q: string)
    requires sep !in head && p == head + [sep] + tail
    requires Split(tail + [sep] + q, sep) == Split(tail, sep) + Split(q, sep)
    ensures Split(p + [sep] + q, sep) == Split(p, sep) + Split(q, sep)
  {
    var rest := tail + [sep] + q;
    var a, b := Split(tail, sep), Split(q, sep);
    Regroup(head, tail, q, sep);
    SplitAtFirst(head, sep, rest, p + [sep] + q);
    SplitAtFirst(head, sep, tail, p);
    SeqConcatAssoc([head], a, b);
  }

  /** Regrouping the pieces around the first separator. */
  lemma Regroup(head: string, tail: string, q: string, sep: char)
    ensures head + [sep] + tail + [sep] + q == head + [sep] + (tail + [sep] + q)
  {
  }

  /** Concatenation is associative. */
  lemma SeqConcatAssoc<T>(a: seq<T>, b: seq<T>, c: seq<T>)
    ensures a + (b + c) == a + b + c
  {
  }

  /** The course id of a live-class page: the second-to-last `/`-separated
    * segment of the URL path (`/live/<id>/` gives `<id>`). A path with no
    * `/` has no such segment: the page then reads `undefined`. */
  function CourseIdFromPath(path: string): (id: Option<string>)
    ensures id.Some? ==> '/' !in id.value
    ensures id.Some? ==> id.value in Split(path, '/')
  {
    var parts := Split(path, '/');
    if |parts| >= 2 then Some(parts[|parts| - 2]) else None
  }

  /** The course id is undefined exactly when the path has no `/`. */
  lemma CourseIdUndefinedIffNoSlash(path: string)
    ensures CourseIdFromPath(path).None? <==> '/' !in path
  {
    match FirstIndexOf(path, '/')
    case None =>
    case Some(i) =>
  }

  /** The course id is the segment between the last two slashes of the path,
    * or everything before the only slash when there is just one. */
  lemma CourseIdBetweenLastSlashes(pre: string, id: string, last: string)
    requires '/' !in id && '/' !in last
    ensures CourseIdFromPath(pre + ['/'] + id + ['/'] + last) == Some(id)
    ensures CourseIdFromPath(id + ['/'] + last) == Some(id)
  {
    assert FirstIndexOf(id, '/') == None;
    assert FirstIndexOf(last, '/') == None;
    SplitAround(id, '/', last);
    assert pre + ['/'] + id + ['/'] + last == pre + ['/'] + (id + ['/'] + last);
    SplitAround(pre, '/', id + ['/'] + last);
  }
}
