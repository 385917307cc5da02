/**
 * Swift's `joined(separator:)` on an array of strings, and the splitting
 * that undoes it when no part contains the separator's first character.
 */
module Joining {

  /** The parts in order with `sep` between each two neighbours. */
  function Join(parts: seq<string>, sep: string): string
  {
    if parts == [] then ""
    else if |parts| == 1 then parts[0]
    else parts[0] + sep + Join(parts[1..], sep)
  }

  /** Cuts `text` at every occurrence of `sep`, scanning from the left; always at least one piece. */
  function Split(text: string, sep: string): (parts: seq<string>)
    requires |sep| > 0
    ensures |parts| > 0
    decreases |text|
  {
    if |sep| <= |text| && text[..|sep|] == sep then [""] + Split(text[|sep|..], sep)
    else if text == [] then [""]
    else
      var rest := Split(text[1..], sep);
      [[text[0]] + rest[0]] + rest[1..]
  }

  /** A part that cannot start a separator. */
  predicate FreeOf(part: string, sep: string)
    requires |sep| > 0
  {
    sep[0] !in part
  }

  lemma {:induction false} SplitWhole(part: string, sep: string)
    requires |sep| > 0 && FreeOf(part, sep)
    ensures Split(part, sep) == [part]
    decreases |part|
  {
    if part != [] {
      assert part[0] != sep[0];
      assert !(|sep| <= |part| && part[..|sep|] == sep);
      SplitWhole(part[1..], sep);
      assert part == [part[0]] + part[1..];
    }
  }

  lemma {:induction false} SplitFirst(part: string, sep: string, tail: string)
    requires |sep| > 0 && FreeOf(part, sep)
    ensures Split(part + sep + tail, sep) == [part] + Split(tail, sep)
    decreases |part|
  {
    var text := part + sep + tail;
    if part == [] {
      assert text == sep + tail;
      assert text[..|sep|] == sep && text[|sep|..] == tail;
    } else {
      assert text[0] == part[0] != sep[0];
      assert !(|sep| <= |text| && text[..|sep|] == sep);
      assert text[1..] == part[1..] + sep + tail;
      SplitFirst(part[1..], sep, tail);
      assert part == [part[0]] + part[1..];
    }
  }

  /** Splitting a joined list at the same separator gives the list back. */
  lemma {:induction false} SplitJoin(parts: seq<string>, sep: string)
    requires |sep| > 0 && |parts| > 0
    requires forall p :: p in parts ==> FreeOf(p, sep)
    ensures Split(Join(parts, sep), sep) == parts
    decreases |parts|
  {
    if |parts| == 1 {
      SplitWhole(parts[0], sep);
    } else {
      assert parts[0] in parts;
      assert forall p :: p in parts[1..] ==> p in parts;
      SplitJoin(parts[1..], sep);
      SplitFirst(parts[0], sep, Join(parts[1..], sep));
      assert parts == [parts[0]] + parts[1..];
    }
  }

  /** Each part is at most as long as the joined text. */
  lemma {:induction false} JoinLength(parts: seq<string>, sep: string, i: nat)
    requires i < |parts|
    ensures |parts[i]| <= |Join(parts, sep)|
    decreases |parts|
  {
    if |parts| > 1 && i > 0 {
      JoinLength(parts[1..], sep, i - 1);
    }
  }

  /** A character found in no part and not in the separator is not in the joined text. */
  lemma {:induction false} JoinAvoids(parts: seq<string>, sep: string, c: char)
    requires c !in sep && forall p :: p in parts ==> c !in p
    ensures c !in Join(parts, sep)
    decreases |parts|
  {
    if |parts| > 1 {
      assert parts[0] in parts;
      assert forall p :: p in parts[1..] ==> p in parts;
      JoinAvoids(parts[1..], sep, c);
    } else if |parts| == 1 {
      assert parts[0] in parts;
    }
  }

  /** Two parts joined. */
  lemma JoinTwo(a: string, b: string, sep: string)
    ensures Join([a, b], sep) == a + sep + b
  {
    assert [a, b][1..] == [b];
  }

  /** Three parts joined. */
  lemma JoinThree(a: string, b: string, c: string, sep: string)
    ensures Join([a, b, c], sep) == a + sep + (b + sep + c)
  {
    assert [a, b, c][1..] == [b, c];
    JoinTwo(b, c, sep);
  }
}
