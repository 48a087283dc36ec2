/**
 * The few Python built-ins the helpers rely on: truthiness of an optional
 * string, `str.split` with a one-character separator and its inverse
 * `str.join`, substring tests, and list-comprehension filtering.
 */
module Python {
  import opened Wrappers

  /** `bool(v)` for a value that is None or a str: None and "" are false. */
  predicate Truthy(v: Option<string>)
  {
    v.Some? && v.value != ""
  }

  /** The idiom `v if v else d`. */
  function OrDefault(v: Option<string>, d: string): string
  {
    if Truthy(v) then v.value else d
  }

  predicate StartsWith(s: string, prefix: string)
  {
    prefix <= s
  }

  predicate EndsWith(s: string, suffix: string)
  {
    |suffix| <= |s| && s[|s| - |suffix|..] == suffix
  }

  /** `sub` occurs in `s` starting at index `i`. */
  predicate OccursAt(s: string, sub: string, i: int)
  {
    0 <= i <= |s| - |sub| && s[i..i + |sub|] == sub
  }

  /** `sub in s` for two strings. */
  predicate Contains(s: string, sub: string)
  {
    exists i | 0 <= i <= |s| - |sub| :: OccursAt(s, sub, i)
  }

  /** `s.split(sep)`: never empty, and no part holds the separator. */
  function Split(s: string, sep: char): (parts: seq<string>)
    ensures |parts| >= 1
    ensures forall k :: 0 <= k < |parts| ==> sep !in parts[k]
    decreases |s|
  {
    if s == [] then [""]
    else if s[0] == sep then [""] + Split(s[1..], sep)
    else
      var rest := Split(s[1..], sep);
      [[s[0]] + rest[0]] + rest[1..]
  }

  /** `sep.join(parts)`. */
  function Join(parts: seq<string>, sep: char): string
    requires |parts| >= 1
    decreases |parts|
  {
    if |parts| == 1 then parts[0] else parts[0] + [sep] + Join(parts[1..], sep)
  }

  /** A string without the separator splits into itself alone. */
  lemma {:induction false} SplitWithoutSeparator(s: string, sep: char)
    requires sep !in s
    ensures Split(s, sep) == [s]
    decreases |s|
  {
    if s != [] {
      assert s[0] in s;
      SplitWithoutSeparator(s[1..], sep);
      assert [s[0]] + s[1..] == s;
    }
  }

  /** Splitting distributes over one separator occurrence. */
  lemma {:induction false} SplitAround(a: string, b: string, sep: char)
    ensures Split(a + [sep] + b, sep) == Split(a, sep) + Split(b, sep)
    decreases |a|
  {
    var s := a + [sep] + b;
    if a == [] {
      assert s[1..] == b;
    } else {
      assert s[0] == a[0];
      assert s[1..] == a[1..] + [sep] + b;
      SplitAround(a[1..], b, sep);
    }
  }

  /** Joining the parts of a split gives the string back. */
  lemma {:induction false} JoinSplit(s: string, sep: char)
    ensures Join(Split(s, sep), sep) == s
    decreases |s|
  {
    if s != [] {
      var rest := Split(s[1..], sep);
      JoinSplit(s[1..], sep);
      if s[0] == sep {
        assert Split(s, sep)[1..] == rest;
      } else {
        var parts := Split(s, sep);
        assert parts[1..] == rest[1..];
        if |rest| == 1 {
          assert parts == [[s[0]] + rest[0]];
        } else {
          assert Join(rest, sep) == rest[0] + [sep] + Join(rest[1..], sep);
        }
      }
    }
  }

  /** Splitting a join of separator-free parts gives the parts back. */
  lemma {:induction false} SplitJoin(parts: seq<string>, sep: char)
    requires |parts| >= 1
    requires forall k :: 0 <= k < |parts| ==> sep !in parts[k]
    ensures Split(Join(parts, sep), sep) == parts
    decreases |parts|
  {
    SplitWithoutSeparator(parts[0], sep);
    if |parts| > 1 {
      SplitJoin(parts[1..], sep);
      SplitAround(parts[0], Join(parts[1..], sep), sep);
    }
  }

  /** `s.split(sep)[0]`: what comes before the first separator. */
  function FirstField(s: string, sep: char): (f: string)
    ensures f <= s && sep !in f
    ensures f == s || s[|f|] == sep
  {
    FirstFieldShape(s, sep);
    Split(s, sep)[0]
  }

  lemma {:induction false} FirstFieldShape(s: string, sep: char)
    ensures var f := Split(s, sep)[0]; f <= s && (f == s || s[|f|] == sep)
    decreases |s|
  {
    if s != [] && s[0] != sep {
      FirstFieldShape(s[1..], sep);
      assert s == [s[0]] + s[1..];
    }
  }

  /** The first field is the only separator-free prefix that ends at a separator or at the end. */
  lemma FirstFieldUnique(s: string, sep: char, g: string)
    requires g <= s && sep !in g && (g == s || s[|g|] == sep)
    ensures g == FirstField(s, sep)
  {
    var f := FirstField(s, sep);
    assert g == s[..|g|] && f == s[..|f|];
  }

  /** `s.split(sep)[-1]`: what comes after the last separator. */
  function LastField(s: string, sep: char): (f: string)
    ensures |f| <= |s| && s[|s| - |f|..] == f && sep !in f
    ensures f == s || s[|s| - |f| - 1] == sep
  {
    LastFieldShape(s, sep);
    var parts := Split(s, sep);
    parts[|parts| - 1]
  }

  lemma {:induction false} LastFieldShape(s: string, sep: char)
    ensures var parts := Split(s, sep); var f := parts[|parts| - 1];
      |f| <= |s| && s[|s| - |f|..] == f &&
      (|parts| == 1 ==> f == s) && (|parts| > 1 ==> |f| < |s| && s[|s| - |f| - 1] == sep)
    decreases |s|
  {
    if s != [] {
      LastFieldShape(s[1..], sep);
      var rest := Split(s[1..], sep);
      var parts := Split(s, sep);
      var f := rest[|rest| - 1];
      assert s[1..][|s| - 1 - |f|..] == f;
      assert s[|s| - |f|..] == s[1..][|s| - 1 - |f|..];
      if s[0] == sep {
        assert parts[|parts| - 1] == f;
      } else if |rest| > 1 {
        assert parts[|parts| - 1] == f;
        assert s[|s| - |f| - 1] == s[1..][|s| - 1 - |f| - 1];
      } else {
        assert parts == [[s[0]] + rest[0]];
        assert s == [s[0]] + s[1..];
      }
    }
  }

  /** The list comprehension `[x for x in s if keep(x)]`. */
  function Filter<T(!new)>(s: seq<T>, keep: T -> bool): (r: seq<T>)
    ensures |r| <= |s|
    ensures forall x :: x in r <==> x in s && keep(x)
    decreases |s|
  {
    if s == [] then []
    else if keep(s[0]) then [s[0]] + Filter(s[1..], keep)
    else Filter(s[1..], keep)
  }

  /**
   * A comprehension over a list with one more element at the end keeps what
   * it kept before, in the same order, followed by that element if it passes.
   */
  lemma {:induction false} FilterAppend<T(!new)>(s: seq<T>, x: T, keep: T -> bool)
    ensures Filter([], keep) == []
    ensures Filter(s + [x], keep) == Filter(s, keep) + (if keep(x) then [x] else [])
    decreases |s|
  {
    if s != [] {
      assert (s + [x])[0] == s[0];
      assert (s + [x])[1..] == s[1..] + [x];
      FilterAppend(s[1..], x, keep);
    }
  }

  /** Each kept element appears as often as in the input, and a dropped one not at all. */
  lemma {:induction false} FilterMultiset<T(!new)>(s: seq<T>, keep: T -> bool)
    ensures forall x :: multiset(Filter(s, keep))[x] == if keep(x) then multiset(s)[x] else 0
    decreases |s|
  {
    if s != [] {
      FilterMultiset(s[1..], keep);
      assert s == [s[0]] + s[1..];
      assert multiset(s) == multiset([s[0]]) + multiset(s[1..]);
    }
  }

  /**
   * The value a loop variable holds after the files were visited in turn,
   * each visit assigning it only when the file offers a reading: the last
   * reading, or None while it was never bound.
   */
  function Carried(readings: seq<Option<string>>): (v: Option<string>)
    decreases |readings|
  {
    if readings == [] then None
    else if readings[|readings| - 1].Some? then readings[|readings| - 1]
    else Carried(readings[..|readings| - 1])
  }

  /** The variable stays unbound exactly when no file offered a reading. */
  lemma {:induction false} CarriedNoneIff(readings: seq<Option<string>>)
    ensures Carried(readings).None? <==> forall k :: 0 <= k < |readings| ==> readings[k].None?
    decreases |readings|
  {
    if readings != [] && readings[|readings| - 1].None? {
      var front := readings[..|readings| - 1];
      CarriedNoneIff(front);
      assert forall k :: 0 <= k < |front| ==> front[k] == readings[k];
    }
  }

  /** Once the first file offered a reading, the variable is bound. */
  lemma CarriedBoundByFirst(readings: seq<Option<string>>)
    requires readings != [] && readings[0].Some?
    ensures Carried(readings).Some?
  {
    CarriedNoneIff(readings);
  }

  /** A carried value is the latest reading: no file after it offered one. */
  lemma {:induction false} CarriedIsLatest(readings: seq<Option<string>>)
    requires Carried(readings).Some?
    ensures exists k :: (0 <= k < |readings| && readings[k] == Carried(readings) &&
      (forall j :: k < j < |readings| ==> readings[j].None?))
    decreases |readings|
  {
    var last := |readings| - 1;
    if readings[last].None? {
      var front := readings[..last];
      CarriedIsLatest(front);
      var k :| 0 <= k < |front| && front[k] == Carried(front) && (forall j :: k < j < |front| ==> front[j].None?);
      assert readings[k] == front[k];
      assert forall j :: k < j < last ==> readings[j] == front[j];
    }
  }

  lemma CarriedStep(readings: seq<Option<string>>, next: Option<string>)
    ensures Carried(readings + [next]) == if next.Some? then next else Carried(readings)
  {
    assert (readings + [next])[..|readings|] == readings;
  }
}
