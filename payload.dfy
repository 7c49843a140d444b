/**
 * The loosely shaped values the game service delivers (decoded JSON), with
 * Python's truthiness, `dict.get` and `str.split()` written out, since the
 * bot's turn logic branches on exactly these.
 */
module Payload {

  /** A decoded JSON value; `JNull` also stands for Python's `None`. */
  datatype Json =
    | JNull
    | JBool(b: bool)
    | JInt(i: int)
    | JStr(s: string)
    | JList(items: seq<Json>)
    | JObj(fields: map<string, Json>)

  /** Python's `bool(v)`: null, false, zero and empty containers are falsy. */
  predicate Truthy(v: Json) {
    match v
    case JNull => false
    case JBool(b) => b
    case JInt(i) => i != 0
    case JStr(s) => s != ""
    case JList(items) => items != []
    case JObj(fields) => fields != map[]
  }

  /** Python's `d.get(key)`: `None` when the key is absent. */
  function Get(d: map<string, Json>, key: string): (v: Json)
    ensures key in d ==> v == d[key]
    ensures key !in d ==> v == JNull
  {
    if key in d then d[key] else JNull
  }

  /** The characters Python's `str.split()` treats as separators (`str.isspace`). */
  predicate IsSpace(c: char) {
    || '\t' <= c <= '\r'
    || '\U{1C}' <= c <= ' '
    || c == '\U{85}' || c == '\U{A0}' || c == '\U{1680}'
    || '\U{2000}' <= c <= '\U{200A}'
    || c == '\U{2028}' || c == '\U{2029}' || c == '\U{202F}' || c == '\U{205F}' || c == '\U{3000}'
  }

  /** A piece of a split: non-empty and free of separators. */
  predicate IsToken(w: string) {
    w != [] && forall i :: 0 <= i < |w| ==> !IsSpace(w[i])
  }

  /** The longest separator-free prefix of `s`. */
  function Word(s: string): (w: string)
    ensures |w| <= |s| && w == s[..|w|]
    ensures forall i :: 0 <= i < |w| ==> !IsSpace(w[i])
    ensures |w| < |s| ==> IsSpace(s[|w|])
    ensures s != [] && !IsSpace(s[0]) ==> |w| > 0
    decreases |s|
  {
    if s == [] || IsSpace(s[0]) then [] else [s[0]] + Word(s[1..])
  }

  /**
   * Python's `s.split()` with no argument: the maximal runs of
   * non-separator characters, in order; leading, trailing and repeated
   * separators produce no empty pieces.
   */
  function Split(s: string): (r: seq<string>)
    ensures forall i :: 0 <= i < |r| ==> IsToken(r[i])
    ensures |r| <= |s|
    decreases |s|
  {
    if s == [] then []
    else if IsSpace(s[0]) then Split(s[1..])
    else
      var w := Word(s);
      [w] + Split(s[|w|..])
  }

  /** `" ".join(ts)`: how the service writes a move list. */
  function Join(ts: seq<string>): (s: string) {
    if ts == [] then ""
    else if |ts| == 1 then ts[0]
    else ts[0] + " " + Join(ts[1..])
  }

  lemma {:induction false} WordOfTokenThenSpace(w: string, rest: string)
    requires IsToken(w)
    requires rest == [] || IsSpace(rest[0])
    ensures Word(w + rest) == w
    decreases |w|
  {
    var s := w + rest;
    if |w| == 1 {
      assert s[1..] == rest;
      assert Word(rest) == [];
    } else {
      assert s[1..] == w[1..] + rest;
      assert IsToken(w[1..]) by {
        forall i | 0 <= i < |w[1..]| ensures !IsSpace(w[1..][i]) { assert w[1..][i] == w[i + 1]; }
      }
      WordOfTokenThenSpace(w[1..], rest);
    }
  }

  /** A word ends where its string's first separator is, so text after that separator does not change it. */
  lemma {:induction false} WordAppend(x: string, y: string)
    requires |Word(x)| < |x| || y == [] || IsSpace(y[0])
    ensures Word(x + y) == Word(x)
    decreases |x|
  {
    if x == [] {
      assert x + y == y;
    } else if !IsSpace(x[0]) {
      assert (x + y)[1..] == x[1..] + y;
      WordAppend(x[1..], y);
    }
  }

  /** A single token splits into itself. */
  lemma SplitToken(w: string)
    requires IsToken(w)
    ensures Split(w) == [w]
  {
    WordOfTokenThenSpace(w, []);
    assert w + [] == w;
    assert w[|w|..] == [];
  }

  /** A leading separator is skipped. */
  lemma SplitSkip(a: string, c: char, b: string)
    requires IsSpace(c)
    ensures a == [] ==> Split(a + [c] + b) == Split(b)
    ensures a != [] && IsSpace(a[0]) ==> Split(a + [c] + b) == Split(a[1..] + [c] + b) && Split(a) == Split(a[1..])
  {
    var s := a + [c] + b;
    if a == [] {
      assert s[1..] == b;
    } else if IsSpace(a[0]) {
      assert s[1..] == a[1..] + [c] + b;
    }
  }

  /** A leading word of `a` is also the leading word of `a`, a separator and anything after it. */
  lemma SplitWordFirst(a: string, c: char, b: string)
    requires IsSpace(c) && a != [] && !IsSpace(a[0])
    ensures 0 < |Word(a)| <= |a|
    ensures Split(a + [c] + b) == [Word(a)] + Split(a[|Word(a)|..] + [c] + b)
    ensures Split(a) == [Word(a)] + Split(a[|Word(a)|..])
  {
    var s := a + [c] + b;
    var w := Word(a);
    assert Word(s) == w by {
      assert ([c] + b)[0] == c && s == a + ([c] + b);
      WordAppend(a, [c] + b);
    }
    assert s[0] == a[0];
    assert s[|w|..] == a[|w|..] + [c] + b;
  }

  /**
   * A separator cuts a string into two parts that split independently:
   * together with `SplitToken` this fixes `Split` on every string, leading,
   * trailing and repeated separators included.
   */
  lemma {:induction false} SplitAtSpace(a: string, c: char, b: string)
    requires IsSpace(c)
    ensures Split(a + [c] + b) == Split(a) + Split(b)
    decreases |a|
  {
    SplitSkip(a, c, b);
    if a == [] {
      assert [] + Split(b) == Split(b);
    } else if IsSpace(a[0]) {
      SplitAtSpace(a[1..], c, b);
    } else {
      SplitWordFirst(a, c, b);
      var w, rest := Word(a), a[|Word(a)|..];
      SplitAtSpace(rest, c, b);
      ConcatAssoc([w], Split(rest), Split(b));
    }
  }

  lemma ConcatAssoc<T>(x: seq<T>, y: seq<T>, z: seq<T>)
    ensures (x + y) + z == x + (y + z)
  {
  }

  /** Splitting a space-joined list of tokens gives the list back. */
  lemma {:induction false} SplitJoin(ts: seq<string>)
    requires forall i :: 0 <= i < |ts| ==> IsToken(ts[i])
    ensures Split(Join(ts)) == ts
    decreases |ts|
  {
    if |ts| == 1 {
      SplitToken(ts[0]);
    } else if |ts| > 1 {
      assert Join(ts) == ts[0] + [' '] + Join(ts[1..]);
      SplitAtSpace(ts[0], ' ', Join(ts[1..]));
      SplitToken(ts[0]);
      SplitJoin(ts[1..]);
      assert ts == [ts[0]] + ts[1..];
    }
  }

}
