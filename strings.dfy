/**
 * Joining and splitting strings on a single separator character, as the
 * Java code does with `String.join`, `Collectors.joining`, Guava's `Joiner`
 * and `String.split` / `Pattern.split` on a one-character pattern.
 */
module Strings {

  /** The parts with `sep` between consecutive parts. */
  function Join(parts: seq<string>, sep: char): string
  {
    if |parts| == 0 then ""
    else if |parts| == 1 then parts[0]
    else parts[0] + [sep] + Join(parts[1..], sep)
  }

  /** `s` cut at every occurrence of `sep`; empty parts are kept. */
  function SplitAll(s: string, sep: char): (parts: seq<string>)
    ensures |parts| >= 1
    ensures forall i :: 0 <= i < |parts| ==> sep !in parts[i]
    decreases |s|
  {
    if s == [] then [""]
    else if s[0] == sep then [""] + SplitAll(s[1..], sep)
    else
      var rest := SplitAll(s[1..], sep);
      [[s[0]] + rest[0]] + rest[1..]
  }

  /** `parts` without its trailing run of empty strings. */
  function DropTrailingEmpty(parts: seq<string>): (r: seq<string>)
    ensures r <= parts
    ensures |r| > 0 ==> r[|r| - 1] != ""
    ensures forall i :: |r| <= i < |parts| ==> parts[i] == ""
  {
    if |parts| > 0 && parts[|parts| - 1] == "" then DropTrailingEmpty(parts[..|parts| - 1])
    else parts
  }

  /**
   * Java's `split` on a one-character pattern with limit 0: an input without
   * the separator is returned as the only part (even when it is empty);
   * otherwise every separator cuts and trailing empty parts are discarded.
   */
  function JavaSplit(s: string, sep: char): seq<string>
  {
    if sep !in s then [s] else DropTrailingEmpty(SplitAll(s, sep))
  }

  /** `k` empty strings. */
  function Empties(k: nat): seq<string>
  {
    seq(k, _ => "")
  }

  /** `k` copies of the character `c`. */
  function Repeat(c: char, k: nat): string
  {
    seq(k, _ => c)
  }

  predicate IsPrefix(prefix: string, s: string)
  {
    |prefix| <= |s| && s[..|prefix|] == prefix
  }

  /** Gluing a head onto the first part glues it onto the whole join. */
  lemma JoinGlue(head: string, rest: seq<string>, sep: char)
    requires |rest| >= 1
    ensures Join([head + rest[0]] + rest[1..], sep) == head + Join(rest, sep)
  {
    var parts := [head + rest[0]] + rest[1..];
    if |rest| > 1 {
      assert parts[1..] == rest[1..];
    }
  }

  /** Splitting and joining again gives back the input. */
  lemma {:induction false} JoinSplit(s: string, sep: char)
    ensures Join(SplitAll(s, sep), sep) == s
    decreases |s|
  {
    if s != [] {
      JoinSplit(s[1..], sep);
      var rest := SplitAll(s[1..], sep);
      if s[0] == sep {
        assert SplitAll(s, sep) == [""] + rest;
        assert ([""] + rest)[1..] == rest;
      } else {
        assert SplitAll(s, sep) == [[s[0]] + rest[0]] + rest[1..];
        JoinGlue([s[0]], rest, sep);
      }
      assert s == [s[0]] + s[1..];
    }
  }

  /** A separator-free head is glued to the first part of what follows it. */
  lemma {:induction false} SplitPrefixFree(a: string, t: string, sep: char)
    requires sep !in a
    ensures SplitAll(a + t, sep) == [a + SplitAll(t, sep)[0]] + SplitAll(t, sep)[1..]
    decreases |a|
  {
    if a != [] {
      assert (a + t)[0] == a[0];
      assert (a + t)[1..] == a[1..] + t;
      SplitPrefixFree(a[1..], t, sep);
      var tail := SplitAll(t, sep);
      var rest := SplitAll(a[1..] + t, sep);
      assert rest == [a[1..] + tail[0]] + tail[1..];
      assert SplitAll(a + t, sep) == [[a[0]] + rest[0]] + rest[1..];
      assert [a[0]] + (a[1..] + tail[0]) == a + tail[0];
    } else {
      var tail := SplitAll(t, sep);
      assert a + t == t && a + tail[0] == tail[0];
      assert tail == [tail[0]] + tail[1..];
    }
  }

  /** Joining separator-free parts and splitting again gives back the parts. */
  lemma {:induction false} SplitJoin(parts: seq<string>, sep: char)
    requires |parts| >= 1
    requires forall i :: 0 <= i < |parts| ==> sep !in parts[i]
    ensures SplitAll(Join(parts, sep), sep) == parts
  {
    if |parts| == 1 {
      SplitPrefixFree(parts[0], "", sep);
      assert parts[0] + "" == parts[0];
    } else {
      var j := Join(parts[1..], sep);
      SplitJoin(parts[1..], sep);
      SplitPrefixFree(parts[0], [sep] + j, sep);
      assert ([sep] + j)[1..] == j;
      assert SplitAll([sep] + j, sep) == [""] + parts[1..];
      assert Join(parts, sep) == parts[0] + ([sep] + j);
      assert SplitAll(Join(parts, sep), sep) == [parts[0] + ""] + parts[1..];
      assert parts[0] + "" == parts[0];
      assert parts == [parts[0]] + parts[1..];
    }
  }

  /** Joining distributes over concatenation of two non-empty lists. */
  lemma {:induction false} JoinAppend(xs: seq<string>, ys: seq<string>, sep: char)
    requires |xs| >= 1 && |ys| >= 1
    ensures Join(xs + ys, sep) == Join(xs, sep) + [sep] + Join(ys, sep)
  {
    if |xs| == 1 {
      assert (xs + ys)[1..] == ys;
    } else {
      JoinAppend(xs[1..], ys, sep);
      assert (xs + ys)[1..] == xs[1..] + ys;
    }
  }

  /** A non-empty group joined in place at the head joins like its parts. */
  lemma JoinGroupHead(group: seq<string>, ys: seq<string>, sep: char)
    requires |group| >= 1
    ensures Join([Join(group, sep)] + ys, sep) == Join(group + ys, sep)
  {
    if |ys| >= 1 {
      JoinAppend([Join(group, sep)], ys, sep);
      JoinAppend(group, ys, sep);
    } else {
      assert [Join(group, sep)] + ys == [Join(group, sep)] && group + ys == group;
    }
  }

  /** Two non-empty lists with equal joins still join equally after a common head. */
  lemma JoinSameTail(xs: seq<string>, a: seq<string>, b: seq<string>, sep: char)
    requires |a| >= 1 && |b| >= 1 && Join(a, sep) == Join(b, sep)
    ensures Join(xs + a, sep) == Join(xs + b, sep)
  {
    if |xs| >= 1 {
      JoinAppend(xs, a, sep);
      JoinAppend(xs, b, sep);
    } else {
      assert xs + a == a && xs + b == b;
    }
  }

  /** Joining a list that holds an already joined group flattens the group. */
  lemma JoinFlatten(xs: seq<string>, group: seq<string>, ys: seq<string>, sep: char)
    requires |group| >= 1
    ensures Join(xs + [Join(group, sep)] + ys, sep) == Join(xs + group + ys, sep)
  {
    var g := Join(group, sep);
    JoinGroupHead(group, ys, sep);
    JoinSameTail(xs, [g] + ys, group + ys, sep);
    assert xs + [g] + ys == xs + ([g] + ys);
    assert xs + group + ys == xs + (group + ys);
  }

  /** Appending empty parts appends one separator per part. */
  lemma {:induction false} JoinEmpties(parts: seq<string>, k: nat, sep: char)
    requires |parts| >= 1
    ensures Join(parts + Empties(k), sep) == Join(parts, sep) + Repeat(sep, k)
  {
    if k == 0 {
      assert parts + Empties(0) == parts;
      assert Join(parts, sep) + Repeat(sep, 0) == Join(parts, sep);
    } else {
      JoinEmpties(parts, k - 1, sep);
      assert parts + Empties(k) == (parts + Empties(k - 1)) + [""];
      JoinAppend(parts + Empties(k - 1), [""], sep);
      assert Repeat(sep, k) == Repeat(sep, k - 1) + [sep];
    }
  }

  /** Trailing empty parts are exactly what DropTrailingEmpty removes. */
  lemma {:induction false} DropEmpties(parts: seq<string>, k: nat)
    requires |parts| >= 1 && parts[|parts| - 1] != ""
    ensures DropTrailingEmpty(parts + Empties(k)) == parts
  {
    if k == 0 {
      assert parts + Empties(0) == parts;
    } else {
      var p := parts + Empties(k);
      assert p[|p| - 1] == "";
      assert p[..|p| - 1] == parts + Empties(k - 1);
      DropEmpties(parts, k - 1);
    }
  }

  /**
   * Java's split of separator-free parts, the last one non-empty, joined and
   * followed by any number of separators, gives back the parts.
   */
  lemma JavaSplitOfJoin(parts: seq<string>, k: nat, sep: char)
    requires |parts| >= 2 && parts[|parts| - 1] != ""
    requires forall i :: 0 <= i < |parts| ==> sep !in parts[i]
    ensures JavaSplit(Join(parts, sep) + Repeat(sep, k), sep) == parts
  {
    var all := parts + Empties(k);
    var s := Join(parts, sep) + Repeat(sep, k);
    JoinEmpties(parts, k, sep);
    assert Join(all, sep) == s;
    assert forall i :: 0 <= i < |all| ==> sep !in all[i] by {
      forall i | 0 <= i < |all| ensures sep !in all[i] {
        if i >= |parts| { assert all[i] == ""; }
      }
    }
    SplitJoin(all, sep);
    DropEmpties(parts, k);
    assert s[|parts[0]|] == sep;
  }

  /** Every split of at least two parts comes from such a join. */
  lemma JavaSplitShape(s: string, sep: char)
    requires |JavaSplit(s, sep)| >= 2
    ensures var parts := JavaSplit(s, sep);
      && parts[|parts| - 1] != ""
      && (forall i :: 0 <= i < |parts| ==> sep !in parts[i])
      && exists k: nat :: s == Join(parts, sep) + Repeat(sep, k)
  {
    JavaSplitCuts(s, sep);
    var k: nat := |SplitAll(s, sep)| - |JavaSplit(s, sep)|;
    JoinSplitPadded(s, sep);
    assert s == Join(JavaSplit(s, sep), sep) + Repeat(sep, k);
  }

  /** A split of at least two parts cuts at every separator and drops trailing empty parts. */
  lemma JavaSplitCuts(s: string, sep: char)
    requires |JavaSplit(s, sep)| >= 2
    ensures JavaSplit(s, sep) == DropTrailingEmpty(SplitAll(s, sep))
    ensures forall i :: 0 <= i < |JavaSplit(s, sep)| ==> sep !in JavaSplit(s, sep)[i]
  {
    var all := SplitAll(s, sep);
    var parts := JavaSplit(s, sep);
    assert sep in s;
    assert parts <= all;
    forall i | 0 <= i < |parts| ensures sep !in parts[i] {
      assert parts[i] == all[i];
    }
  }

  /** Joining the split and putting back one separator per dropped empty part gives back the input. */
  lemma JoinSplitPadded(s: string, sep: char)
    requires JavaSplit(s, sep) == DropTrailingEmpty(SplitAll(s, sep)) && |JavaSplit(s, sep)| >= 1
    ensures s == Join(JavaSplit(s, sep), sep) + Repeat(sep, |SplitAll(s, sep)| - |JavaSplit(s, sep)|)
  {
    var all := SplitAll(s, sep);
    var parts := DropTrailingEmpty(all);
    var k := |all| - |parts|;
    DroppedAreEmpties(all);
    JoinSplit(s, sep);
    assert s == Join(parts + Empties(k), sep);
    JoinEmpties(parts, k, sep);
  }

  /** What DropTrailingEmpty removes is a run of empty strings. */
  lemma DroppedAreEmpties(parts: seq<string>)
    ensures parts == DropTrailingEmpty(parts) + Empties(|parts| - |DropTrailingEmpty(parts)|)
  {
    var r := DropTrailingEmpty(parts);
    var e := Empties(|parts| - |r|);
    assert forall i :: 0 <= i < |parts| ==> parts[i] == (r + e)[i] by {
      forall i | 0 <= i < |parts| ensures parts[i] == (r + e)[i] {
        if i >= |r| { assert e[i - |r|] == ""; }
      }
    }
  }
}
