/**
 * Dotted Python names seen as lists of components: `s.split('.')` and
 * `'.'.join(parts)`, with the laws that connect the two.
 */
module DottedNames {

  /** `p` is a prefix of `s` (Python's `s.startswith(p)` on strings). */
  predicate IsPrefix<T(==)>(p: seq<T>, s: seq<T>)
  {
    |p| <= |s| && s[..|p|] == p
  }

  /** Python's `s.split('.')`: never empty (`SplitDotFree`: no component holds a dot). */
  function Split(s: string): (parts: seq<string>)
    ensures |parts| >= 1
    decreases |s|
  {
    if |s| == 0 then [""]
    else if s[0] == '.' then [""] + Split(s[1..])
    else
      var rest := Split(s[1..]);
      [[s[0]] + rest[0]] + rest[1..]
  }

  /** No component of a split name holds a dot. */
  lemma {:induction false} SplitDotFree(s: string)
    ensures forall i :: 0 <= i < |Split(s)| ==> '.' !in Split(s)[i]
    decreases |s|
  {
    if |s| > 0 {
      SplitDotFree(s[1..]);
      var rest := Split(s[1..]);
      if s[0] != '.' {
        assert '.' !in [s[0]] + rest[0];
      }
    }
  }

  /** Python's `'.'.join(parts)`. */
  function Join(parts: seq<string>): string
    decreases |parts|
  {
    if |parts| == 0 then ""
    else if |parts| == 1 then parts[0]
    else parts[0] + "." + Join(parts[1..])
  }

  /** Putting an empty component in front adds a leading dot. */
  lemma {:induction false} JoinEmptyFirst(rest: seq<string>)
    requires |rest| >= 1
    ensures Join([""] + rest) == "." + Join(rest)
  {
    assert ([""] + rest)[1..] == rest;
  }

  /** Putting a character in front of the first component puts it in front of the name. */
  lemma {:induction false} JoinExtendFirst(c: char, rest: seq<string>)
    requires |rest| >= 1
    ensures Join([[c] + rest[0]] + rest[1..]) == [c] + Join(rest)
  {
    var first := [c] + rest[0];
    var parts := [first] + rest[1..];
    assert parts[0] == first;
    if |rest| == 1 {
      assert parts == [first];
    } else {
      var tail := Join(rest[1..]);
      assert parts[1..] == rest[1..];
      assert Join(parts) == first + "." + tail;
      assert Join(rest) == rest[0] + "." + tail;
      assert first + "." + tail == [c] + (rest[0] + "." + tail);
    }
  }

  /** Joining the components of a name gives the name back. */
  lemma {:induction false} JoinSplit(s: string)
    ensures Join(Split(s)) == s
    decreases |s|
  {
    if |s| > 0 {
      var rest := Split(s[1..]);
      JoinSplit(s[1..]);
      if s[0] == '.' {
        JoinEmptyFirst(rest);
      } else {
        JoinExtendFirst(s[0], rest);
      }
      assert s == [s[0]] + s[1..];
    }
  }

  /** A name without dots is a single component. */
  lemma {:induction false} SplitNoDot(p: string)
    requires '.' !in p
    ensures Split(p) == [p]
    decreases |p|
  {
    if |p| > 0 {
      assert '.' !in p[1..];
      SplitNoDot(p[1..]);
      assert p == [p[0]] + p[1..];
    }
  }

  /** A leading dot ends an empty first component. */
  lemma {:induction false} SplitDotFirst(t: string)
    ensures Split(['.'] + t) == [""] + Split(t)
  {
    assert (['.'] + t)[1..] == t;
  }

  /** A leading character other than a dot starts the first component. */
  lemma {:induction false} SplitCharFirst(c: char, t: string)
    requires c != '.'
    ensures Split([c] + t) == [[c] + Split(t)[0]] + Split(t)[1..]
  {
    assert ([c] + t)[1..] == t;
  }

  /** The inductive step of `SplitAppend` when `t` is preceded by a dot. */
  lemma {:induction false} SplitAppendDotStep(t: string, b: string)
    requires Split(t + "." + b) == Split(t) + Split(b)
    ensures Split(['.'] + t + "." + b) == Split(['.'] + t) + Split(b)
  {
    var tb := t + "." + b;
    assert ['.'] + t + "." + b == ['.'] + tb;
    SplitDotFirst(t);
    SplitDotFirst(tb);
    ConsAppend("", Split(t), Split(b));
  }

  /** Putting a component in front commutes with appending more components. */
  lemma ConsAppend(first: string, ra: seq<string>, rb: seq<string>)
    ensures [first] + (ra + rb) == ([first] + ra) + rb
  {
  }

  /** Extending the first component of a list commutes with appending more components. */
  lemma {:induction false} ExtendFirstAppend(c: char, ra: seq<string>, rb: seq<string>)
    requires |ra| >= 1
    ensures [[c] + (ra + rb)[0]] + (ra + rb)[1..] == ([[c] + ra[0]] + ra[1..]) + rb
  {
    assert (ra + rb)[0] == ra[0];
    assert (ra + rb)[1..] == ra[1..] + rb;
  }

  /** The inductive step of `SplitAppend` when `t` is preceded by a character other than a dot. */
  lemma {:induction false} SplitAppendCharStep(c: char, t: string, b: string)
    requires c != '.'
    requires Split(t + "." + b) == Split(t) + Split(b)
    ensures Split([c] + t + "." + b) == Split([c] + t) + Split(b)
  {
    var tb := t + "." + b;
    assert [c] + t + "." + b == [c] + tb;
    SplitCharFirst(c, t);
    SplitCharFirst(c, tb);
    ExtendFirstAppend(c, Split(t), Split(b));
  }

  /** Splitting `a + "." + b` splits `a` and `b` apart. */
  lemma {:induction false} SplitAppend(a: string, b: string)
    ensures Split(a + "." + b) == Split(a) + Split(b)
    decreases |a|
  {
    if |a| == 0 {
      assert a + "." + b == ['.'] + b;
      SplitDotFirst(b);
    } else {
      assert a == [a[0]] + a[1..];
      SplitAppend(a[1..], b);
      if a[0] == '.' {
        SplitAppendDotStep(a[1..], b);
      } else {
        SplitAppendCharStep(a[0], a[1..], b);
      }
    }
  }

  /** Splitting a joined list of dot-free components gives the list back. */
  lemma {:induction false} SplitJoin(parts: seq<string>)
    requires |parts| >= 1
    requires forall i :: 0 <= i < |parts| ==> '.' !in parts[i]
    ensures Split(Join(parts)) == parts
    decreases |parts|
  {
    SplitNoDot(parts[0]);
    if |parts| > 1 {
      SplitJoin(parts[1..]);
      SplitAppend(parts[0], Join(parts[1..]));
      assert parts == [parts[0]] + parts[1..];
    }
  }

  /** Joining a concatenation puts one dot between the two joined halves. */
  lemma {:induction false} JoinAppend(a: seq<string>, b: seq<string>)
    requires |a| >= 1 && |b| >= 1
    ensures Join(a + b) == Join(a) + "." + Join(b)
    decreases |a|
  {
    assert (a + b)[1..] == a[1..] + b;
    if |a| > 1 {
      JoinAppend(a[1..], b);
    }
  }
}
