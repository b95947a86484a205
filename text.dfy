/**
 * The string operations model_summary performs, with Python's semantics:
 * `str.split` on a one-character separator (and its inverse, `str.join`),
 * the `%i` rendering of a positive integer, the class-name extraction from
 * `str(module.__class__)` and the layer label `"%s-%i"`.
 */
module Text {

  /** Index of the first occurrence of `c` in `s`. */
  function IndexOf(s: string, c: char): (i: nat)
    requires c in s
    ensures i < |s| && s[i] == c && c !in s[..i]
  {
    if s[0] == c then 0 else 1 + IndexOf(s[1..], c)
  }

  /** Python's `sep.join(parts)`. */
  function Join(parts: seq<string>, sep: char): string
  {
    if |parts| == 0 then ""
    else if |parts| == 1 then parts[0]
    else parts[0] + [sep] + Join(parts[1..], sep)
  }

  /**
   * Python's `s.split(sep)` for a one-character separator: at least one piece,
   * and no piece holds the separator.
   */
  function Split(s: string, sep: char): (parts: seq<string>)
    ensures |parts| >= 1
    ensures forall i :: 0 <= i < |parts| ==> sep !in parts[i]
    decreases |s|
  {
    if sep !in s then [s]
    else
      var i := IndexOf(s, sep);
      [s[..i]] + Split(s[i + 1..], sep)
  }

  /** Joining the pieces of a split with the separator gives back the text. */
  lemma {:induction false} JoinSplit(s: string, sep: char)
    ensures Join(Split(s, sep), sep) == s
    decreases |s|
  {
    if sep in s {
      var i := IndexOf(s, sep);
      var head, tail := s[..i], s[i + 1..];
      var rest := Split(tail, sep);
      JoinSplit(tail, sep);
      var parts := [head] + rest;
      assert Split(s, sep) == parts;
      assert parts[0] == head && parts[1..] == rest;
      assert Join(parts, sep) == head + [sep] + Join(rest, sep);
      assert s == head + [sep] + tail by { assert s[i] == sep; }
    }
  }

  /** The other half of the round trip: splitting a join of separator-free pieces gives the pieces. */
  lemma {:induction false} SplitJoin(parts: seq<string>, sep: char)
    requires |parts| >= 1
    requires forall i :: 0 <= i < |parts| ==> sep !in parts[i]
    ensures Split(Join(parts, sep), sep) == parts
  {
    if |parts| > 1 {
      var head, tail := parts[0], Join(parts[1..], sep);
      var s := head + [sep] + tail;
      assert Join(parts, sep) == s;
      IndexOfFirst(head, sep, tail);
      assert s[..|head|] == head;
      assert s[|head| + 1..] == tail;
      assert Split(s, sep) == [head] + Split(tail, sep);
      SplitJoin(parts[1..], sep);
      assert parts == [head] + parts[1..];
    }
  }

  /** The first piece of a split is the text before the first separator. */
  lemma {:induction false} SplitFirst(a: string, sep: char, b: string)
    requires sep !in a
    ensures Split(a + [sep] + b, sep)[0] == a
  {
    var s := a + [sep] + b;
    IndexOfFirst(a, sep, b);
    assert s[..|a|] == a;
  }

  /** The first `c` of `a + [c] + b` is the one after `a` when `a` has none. */
  lemma IndexOfFirst(a: string, c: char, b: string)
    requires c !in a
    ensures IndexOf(a + [c] + b, c) == |a|
  {
    var s := a + [c] + b;
    assert s[|a|] == c && s[..|a|] == a;
  }

  /** A character found in `a` is found at the same place in `a + b`. */
  lemma {:induction false} IndexOfPrefix(a: string, b: string, c: char)
    requires c in a
    ensures IndexOf(a + b, c) == IndexOf(a, c)
  {
    if a[0] != c {
      assert (a + b)[1..] == a[1..] + b;
      IndexOfPrefix(a[1..], b, c);
    }
  }

  /** The last piece of a split is the text after the last separator. */
  lemma {:induction false} SplitLast(a: string, sep: char, b: string)
    requires sep !in b
    ensures var parts := Split(a + [sep] + b, sep); parts[|parts| - 1] == b
    decreases |a|
  {
    var s := a + [sep] + b;
    var i := IndexOf(s, sep);
    var rest := Split(s[i + 1..], sep);
    var parts := Split(s, sep);
    assert parts == [s[..i]] + rest;
    assert parts[|parts| - 1] == rest[|rest| - 1];
    if sep in a {
      assert s == a + ([sep] + b);
      IndexOfPrefix(a, [sep] + b, sep);
      assert s[i + 1..] == a[i + 1..] + [sep] + b;
      SplitLast(a[i + 1..], sep, b);
    } else {
      assert s[|a|] == sep && s[..|a|] == a;
      assert i == |a|;
      assert s[i + 1..] == b;
    }
  }

  /** Python's `str(cls).split(".")[-1].split("'")[0]`: the bare class name. */
  function ClassName(classRepr: string): (name: string)
    ensures '.' !in name && '\'' !in name
  {
    var dotted := Split(classRepr, '.');
    var last := dotted[|dotted| - 1];
    var quoted := Split(last, '\'');
    JoinSplit(last, '\'');
    SplitPrefix(quoted, '\'');
    quoted[0]
  }

  /** The first piece of a split is a prefix of the split text. */
  lemma SplitPrefix(parts: seq<string>, sep: char)
    requires |parts| >= 1
    ensures |parts[0]| <= |Join(parts, sep)| && Join(parts, sep)[..|parts[0]|] == parts[0]
  {
  }

  /** For the repr Python gives a class, `<class 'pkg.mod.Name'>`, the extracted name is `Name`. */
  lemma CanonicalClassName(path: string, name: string)
    requires '.' !in name && '\'' !in name
    ensures ClassName("<class '" + path + "." + name + "'>") == name
  {
    var repr := "<class '" + path + "." + name + "'>";
    var tail := name + "'>";
    assert '.' !in tail;
    assert repr == ("<class '" + path) + ['.'] + tail;
    SplitLast("<class '" + path, '.', tail);
    assert tail == name + ['\''] + ">";
    SplitFirst(name, '\'', ">");
  }

  /** The decimal digit for `d`. */
  function DigitChar(d: nat): (c: char)
    requires d < 10
    ensures '0' <= c <= '9'
  {
    ('0' as int + d) as char
  }

  /** Python's `"%i" % n` for a natural number: decimal, no leading zero. */
  function Digits(n: nat): (s: string)
    ensures |s| >= 1
    ensures forall i :: 0 <= i < |s| ==> '0' <= s[i] <= '9'
    ensures n > 0 ==> s[0] != '0'
  {
    if n < 10 then [DigitChar(n)] else Digits(n / 10) + [DigitChar(n % 10)]
  }

  /** The value of a string of decimal digits. */
  function Parse(s: string): nat
    requires forall i :: 0 <= i < |s| ==> '0' <= s[i] <= '9'
  {
    if |s| == 0 then 0 else 10 * Parse(s[..|s| - 1]) + (s[|s| - 1] as int - '0' as int)
  }

  /** Reading the digits back gives the number: the rendering is lossless. */
  lemma {:induction false} ParseDigits(n: nat)
    ensures Parse(Digits(n)) == n
  {
    var s := Digits(n);
    if n >= 10 {
      ParseDigits(n / 10);
      assert s[..|s| - 1] == Digits(n / 10);
      assert s[|s| - 1] as int - '0' as int == n % 10;
    }
  }

  /** The layer label `"%s-%i" % (className, k)`. */
  function Label(className: string, k: nat): string
  {
    className + "-" + Digits(k)
  }

  /** Index of the last occurrence of `c` in `s`. */
  function LastIndexOf(s: string, c: char): (i: nat)
    requires c in s
    ensures i < |s| && s[i] == c && c !in s[i + 1..]
  {
    if s[|s| - 1] == c then |s| - 1
    else
      assert c in s[..|s| - 1] by {
        var k :| 0 <= k < |s| && s[k] == c;
        assert s[..|s| - 1][k] == c;
      }
      LastIndexOf(s[..|s| - 1], c)
  }

  /** In `a + "-" + d` with `d` made of digits, the last '-' is the one before `d`. */
  lemma {:induction false} LastDash(a: string, d: string)
    requires forall i :: 0 <= i < |d| ==> '0' <= d[i] <= '9'
    ensures LastIndexOf(a + "-" + d, '-') == |a|
    decreases |d|
  {
    var s := a + "-" + d;
    if |d| > 0 {
      assert s[..|s| - 1] == a + "-" + d[..|d| - 1];
      LastDash(a, d[..|d| - 1]);
    }
  }

  /**
   * Labels with different numbers differ, whatever the class names (even a
   * class name holding '-' or digits): the text after the last '-' is the number.
   */
  lemma LabelInjective(a: string, k: nat, b: string, j: nat)
    requires Label(a, k) == Label(b, j)
    ensures k == j && a == b
  {
    var dk, dj := Digits(k), Digits(j);
    var s := a + "-" + dk;
    assert s == b + "-" + dj;
    LastDash(a, dk);
    LastDash(b, dj);
    assert |a| == |b|;
    assert a == s[..|a|] == b;
    assert dk == s[|a| + 1..] == dj;
    ParseDigits(k);
    ParseDigits(j);
  }
}
