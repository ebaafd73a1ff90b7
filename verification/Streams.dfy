/** Append-only Redis streams: entries of any kind, each with an id, read after a cursor. */
module Streams {

  /** Ids increase strictly along a stream. */
  predicate Increasing<T>(id: T -> nat, s: seq<T>) {
    forall i, j :: 0 <= i < j < |s| ==> id(s[i]) < id(s[j])
  }

  /** The entries an XREAD after `cursor` returns. */
  function After<T>(id: T -> nat, s: seq<T>, cursor: nat): seq<T> {
    if s == [] then [] else (if id(s[0]) > cursor then [s[0]] else []) + After(id, s[1..], cursor)
  }

  /** The id of the last entry, and 0 for an empty stream. */
  function TailId<T>(id: T -> nat, s: seq<T>): nat {
    if s == [] then 0 else id(s[|s| - 1])
  }

  predicate AllAfter<T>(id: T -> nat, s: seq<T>, cursor: nat) {
    forall i :: 0 <= i < |s| ==> id(s[i]) > cursor
  }

  predicate NoneAfter<T>(id: T -> nat, s: seq<T>, cursor: nat) {
    forall i :: 0 <= i < |s| ==> id(s[i]) <= cursor
  }

  lemma {:induction false} AfterConcat<T>(id: T -> nat, s: seq<T>, t: seq<T>, cursor: nat)
    ensures After(id, s + t, cursor) == After(id, s, cursor) + After(id, t, cursor)
  {
    if s == [] {
      assert s + t == t;
    } else {
      assert (s + t)[1..] == s[1..] + t;
      AfterConcat(id, s[1..], t, cursor);
    }
  }

  lemma {:induction false} AfterAll<T>(id: T -> nat, s: seq<T>, cursor: nat)
    requires AllAfter(id, s, cursor)
    ensures After(id, s, cursor) == s
  {
    if s != [] {
      AfterAll(id, s[1..], cursor);
    }
  }

  lemma {:induction false} AfterNone<T>(id: T -> nat, s: seq<T>, cursor: nat)
    requires NoneAfter(id, s, cursor)
    ensures After(id, s, cursor) == []
  {
    if s != [] {
      AfterNone(id, s[1..], cursor);
    }
  }

  lemma TailSplits<T>(id: T -> nat, before: seq<T>, rest: seq<T>)
    requires Increasing(id, before + rest) && AllAfter(id, rest, 0)
    ensures NoneAfter(id, before, TailId(id, before)) && AllAfter(id, rest, TailId(id, before))
  {
    var log, n := before + rest, |before|;
    assert forall i :: 0 <= i < n ==> log[i] == before[i];
    forall i | 0 <= i < |rest| ensures id(rest[i]) > TailId(id, before) {
      assert log[n + i] == rest[i];
    }
  }

  /** What a read after the last id of some prefix returns is exactly the rest. */
  lemma UnreadIsRest<T>(id: T -> nat, before: seq<T>, rest: seq<T>)
    requires Increasing(id, before + rest) && AllAfter(id, rest, 0)
    ensures After(id, before + rest, TailId(id, before)) == rest
  {
    TailSplits(id, before, rest);
    AfterConcat(id, before, rest, TailId(id, before));
    AfterNone(id, before, TailId(id, before));
    AfterAll(id, rest, TailId(id, before));
  }
}
