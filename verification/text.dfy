/** The string operations of Python that the fan-out planner relies on:
    `str.split` with an explicit one-character separator, `str.join`, and
    `str()` of an integer, together with the facts about them that the rest
    of the model uses (split and join are inverse, digit strings are
    decodable and carry no punctuation). */
module Text {
  import opened Results

  /** `s.split(sep)`: the maximal pieces of `s` between occurrences of `sep`.
      There is always one more piece than there are separators, and empty
      pieces are kept (`"a,,b".split(",") == ["a", "", "b"]`). */
  function Split(s: string, sep: char): (parts: seq<string>)
    ensures |parts| >= 1
    ensures forall i :: 0 <= i < |parts| ==> sep !in parts[i]
    decreases |s|
  {
    if s == [] then [""]
    else
      var rest := Split(s[1..], sep);
      if s[0] == sep then [""] + rest
      else [[s[0]] + rest[0]] + rest[1..]
  }

  /** There is one more piece than there are separators. */
  lemma {:induction false} SplitCount(s: string, sep: char)
    ensures |Split(s, sep)| == multiset(s)[sep] + 1
    decreases |s|
  {
    if s != [] {
      SplitCount(s[1..], sep);
      assert s == [s[0]] + s[1..];
      assert multiset(s)[sep] == multiset([s[0]])[sep] + multiset(s[1..])[sep];
    }
  }

  /** `sep.join(parts)`. */
  function Join(sep: string, parts: seq<string>): string
    decreases |parts|
  {
    if parts == [] then ""
    else if |parts| == 1 then parts[0]
    else parts[0] + sep + Join(sep, parts[1..])
  }

  /** Joining the pieces of a split with the same separator gives back the
      original string. */
  lemma {:induction false} JoinSplit(s: string, sep: char)
    ensures Join([sep], Split(s, sep)) == s
    decreases |s|
  {
    if s != [] {
      JoinSplit(s[1..], sep);
      var rest := Split(s[1..], sep);
      var parts := Split(s, sep);
      if s[0] == sep {
        calc {
          Join([sep], parts);
          { assert parts == [""] + rest && |parts| >= 2 && parts[1..] == rest; }
          "" + [sep] + Join([sep], rest);
          [s[0]] + s[1..];
        }
      } else if |rest| == 1 {
        calc {
          Join([sep], parts);
          { assert parts == [[s[0]] + rest[0]]; }
          [s[0]] + rest[0];
          { assert Join([sep], rest) == rest[0]; }
          [s[0]] + s[1..];
        }
      } else {
        calc {
          Join([sep], parts);
          { assert parts == [[s[0]] + rest[0]] + rest[1..] && |parts| >= 2 && parts[1..] == rest[1..]; }
          [s[0]] + rest[0] + [sep] + Join([sep], rest[1..]);
          [s[0]] + (rest[0] + [sep] + Join([sep], rest[1..]));
          [s[0]] + Join([sep], rest);
          [s[0]] + s[1..];
        }
      }
      assert s == [s[0]] + s[1..];
    }
  }

  /** A string free of the separator splits into itself alone. */
  lemma {:induction false} SplitWithoutSep(s: string, sep: char)
    requires sep !in s
    ensures Split(s, sep) == [s]
    decreases |s|
  {
    if s != [] {
      SplitWithoutSep(s[1..], sep);
      assert s == [s[0]] + s[1..];
    }
  }

  /** Splitting at one occurrence of the separator splits the two sides
      independently. */
  lemma {:induction false} SplitAround(a: string, sep: char, b: string)
    ensures Split(a + [sep] + b, sep) == Split(a, sep) + Split(b, sep)
    decreases |a|
  {
    if a == [] {
      assert a + [sep] + b == [sep] + b;
      SplitCons(sep, b, sep);
      AppendAssoc([""], [], Split(b, sep));
    } else {
      SplitAround(a[1..], sep, b);
      AroundFirst(a, sep, b);
      SplitCons(a[0], a[1..], sep);
      SplitCons(a[0], a[1..] + [sep] + b, sep);
      if a[0] == sep {
        AppendAssoc([""], Split(a[1..], sep), Split(b, sep));
      } else {
        GlueFirst(a[0], Split(a[1..], sep), Split(b, sep));
      }
    }
  }

  /** Sequence facts kept apart from `Split`, so that proofs about it need
      not unfold it further than they use. */
  lemma AroundFirst<T>(a: seq<T>, m: T, b: seq<T>)
    requires a != []
    ensures a == [a[0]] + a[1..]
    ensures a + [m] + b == [a[0]] + (a[1..] + [m] + b)
  {
  }

  lemma AppendAssoc<T>(x: seq<T>, y: seq<T>, z: seq<T>)
    ensures x + (y + z) == (x + y) + z
  {
  }

  lemma GlueFirst(c: char, pieces: seq<string>, more: seq<string>)
    requires |pieces| >= 1
    ensures [[c] + (pieces + more)[0]] + (pieces + more)[1..] == ([[c] + pieces[0]] + pieces[1..]) + more
  {
    assert (pieces + more)[0] == pieces[0] && (pieces + more)[1..] == pieces[1..] + more;
  }

  /** `Split` on a string with a known first character. */
  lemma SplitCons(c: char, t: string, sep: char)
    ensures Split([c] + t, sep) ==
      if c == sep then [""] + Split(t, sep) else [[c] + Split(t, sep)[0]] + Split(t, sep)[1..]
  {
    assert ([c] + t)[0] == c && ([c] + t)[1..] == t;
  }

  /** The first piece of a split is the text before the first separator: a
      prefix of the string that the separator, or the end, follows. */
  lemma {:induction false} SplitFirstPiece(s: string, sep: char)
    ensures Split(s, sep)[0] <= s
    ensures |Split(s, sep)[0]| == |s| || s[|Split(s, sep)[0]|] == sep
    decreases |s|
  {
    if s != [] {
      SplitFirstPiece(s[1..], sep);
      SplitCons(s[0], s[1..], sep);
      assert s == [s[0]] + s[1..];
    }
  }

  /** Splitting a join of separator-free pieces gives back the pieces. */
  lemma {:induction false} SplitJoin(parts: seq<string>, sep: char)
    requires |parts| >= 1
    requires forall i :: 0 <= i < |parts| ==> sep !in parts[i]
    ensures Split(Join([sep], parts), sep) == parts
    decreases |parts|
  {
    if |parts| == 1 {
      SplitWithoutSep(parts[0], sep);
    } else {
      SplitJoin(parts[1..], sep);
      SplitWithoutSep(parts[0], sep);
      SplitAround(parts[0], sep, Join([sep], parts[1..]));
      assert Join([sep], parts) == parts[0] + [sep] + Join([sep], parts[1..]);
      assert parts == [parts[0]] + parts[1..];
    }
  }

  /** Text before the first `sep`, and text after it: `s.split(sep, 1)`. */
  function SplitAtFirst(s: string, sep: char): (kv: (string, string))
    requires sep in s
    ensures sep !in kv.0 && s == kv.0 + [sep] + kv.1
    decreases |s|
  {
    if s[0] == sep then ("", s[1..])
    else
      var kv := SplitAtFirst(s[1..], sep);
      ([s[0]] + kv.0, kv.1)
  }

  /** In `a + [c] + x == b + [c] + y`, when `b` is the longer prefix the
      separator after `a` lies inside `b`. */
  lemma SeparatorInLongerPrefix(a: string, x: string, b: string, y: string, c: char)
    requires a + [c] + x == b + [c] + y
    ensures |a| < |b| ==> b[|a|] == c
  {
    if |a| < |b| {
      var s := a + [c] + x;
      assert s[|a|] == c;
      assert b[|a|] == s[|a|];
    }
  }

  /** The first separator splits `a + [c] + x` into `a` and `x` when `a`
      is free of `c`. */
  lemma FirstSeparatorDetermines(a: string, x: string, b: string, y: string, c: char)
    requires c !in a && c !in b
    requires a + [c] + x == b + [c] + y
    ensures a == b && x == y
  {
    SeparatorInLongerPrefix(a, x, b, y, c);
    SeparatorInLongerPrefix(b, y, a, x, c);
    var s := a + [c] + x;
    assert a == s[..|a|] == b;
    assert x == s[|a| + 1..] == y;
  }

  /** `k + [c] + v` splits at its first `c` into `k` and `v`. */
  lemma SplitAtFirstOf(k: string, v: string, c: char)
    requires c !in k
    ensures SplitAtFirst(k + [c] + v, c) == (k, v)
  {
    var kv := SplitAtFirst(k + [c] + v, c);
    FirstSeparatorDetermines(kv.0, kv.1, k, v, c);
  }

  /** The decimal digit for `d`. */
  function Digit(d: nat): char
    requires d < 10
  {
    ('0' as int + d) as char
  }

  predicate IsDigits(s: string)
  {
    forall i :: 0 <= i < |s| ==> '0' <= s[i] <= '9'
  }

  /** `str(n)` for a non-negative integer: its decimal digits, without
      leading zeros. */
  function NatToString(n: nat): (s: string)
    ensures |s| >= 1 && IsDigits(s)
    decreases n
  {
    if n < 10 then [Digit(n)] else NatToString(n / 10) + [Digit(n % 10)]
  }

  /** `str(i)` for any integer: a leading `-` exactly for negatives, then
      decimal digits. */
  function IntToString(i: int): (s: string)
    ensures |s| >= 1 && (s[0] == '-' <==> i < 0)
    ensures i < 0 ==> |s| >= 2 && IsDigits(s[1..])
    ensures i >= 0 ==> IsDigits(s)
  {
    if i < 0 then "-" + NatToString(-i) else NatToString(i)
  }

  /** `int(s)` on an optional `-` followed by decimal digits; `None` for any
      other text. */
  function ParseInt(s: string): Option<int>
  {
    if |s| >= 2 && s[0] == '-' && IsDigits(s[1..]) then
      var magnitude: int := ParseDigits(s[1..]);
      Some(-magnitude)
    else if |s| >= 1 && IsDigits(s) then Some(ParseDigits(s))
    else None
  }

  /** Reads a string of decimal digits back as a number (`int(s)`). */
  function ParseDigits(s: string): nat
    requires IsDigits(s)
    decreases |s|
  {
    if s == [] then 0
    else ParseDigits(s[..|s| - 1]) * 10 + (s[|s| - 1] as int - '0' as int)
  }

  /** `int(str(n)) == n`: the decimal rendering loses nothing. */
  lemma {:induction false} ParseNatToString(n: nat)
    ensures ParseDigits(NatToString(n)) == n
    decreases n
  {
    var s := NatToString(n);
    if n >= 10 {
      ParseNatToString(n / 10);
      assert s[..|s| - 1] == NatToString(n / 10);
    }
  }

  /** `int(str(i)) == i` for every integer, negative ones included. */
  lemma ParseIntToString(i: int)
    ensures ParseInt(IntToString(i)) == Some(i)
  {
    var s := IntToString(i);
    if i < 0 {
      var digits := NatToString(-i);
      assert s == ['-'] + digits;
      assert s[1..] == digits;
      ParseNatToString(-i);
    } else {
      assert s == NatToString(i);
      assert s[0] != '-';
      ParseNatToString(i);
    }
  }

  /** Distinct numbers render as distinct strings. */
  lemma NatToStringInjective(m: nat, n: nat)
    requires NatToString(m) == NatToString(n)
    ensures m == n
  {
    ParseNatToString(m);
    ParseNatToString(n);
  }

  /** In `a + [c] + x == b + [c] + y`, when `y` is the longer suffix the
      separator before `x` lies inside `y`. */
  lemma SeparatorInLongerSuffix(a: string, x: string, b: string, y: string, c: char)
    requires a + [c] + x == b + [c] + y
    ensures |x| < |y| ==> y[|y| - |x| - 1] == c
  {
    if |x| < |y| {
      var s := a + [c] + x;
      assert s[|s| - |x| - 1] == c;
      assert y[|y| - |x| - 1] == s[|s| - |x| - 1];
    }
  }

  /** A string `a + [c] + x` whose suffix `x` is free of `c` determines both
      `a` and `x`: the suffix is what follows the last `c`. */
  lemma LastSeparatorDetermines(a: string, x: string, b: string, y: string, c: char)
    requires c !in x && c !in y
    requires a + [c] + x == b + [c] + y
    ensures a == b && x == y
  {
    SeparatorInLongerSuffix(a, x, b, y, c);
    SeparatorInLongerSuffix(b, y, a, x, c);
    var s := a + [c] + x;
    assert x == s[|s| - |x|..] == y;
    assert a == s[..|a|] == b;
  }

  /** `"{}-{}".format(a, n)` is injective in the pair `(a, n)`: this is why
      derived topic names and consumer-group ids never collide. */
  lemma DashNumberInjective(a: string, m: nat, b: string, n: nat)
    requires a + "-" + NatToString(m) == b + "-" + NatToString(n)
    ensures a == b && m == n
  {
    assert a + "-" + NatToString(m) == a + ['-'] + NatToString(m);
    assert b + "-" + NatToString(n) == b + ['-'] + NatToString(n);
    LastSeparatorDetermines(a, NatToString(m), b, NatToString(n), '-');
    NatToStringInjective(m, n);
  }
}
