/** String facts shared by the routing, stream-discovery and snapshot-key modules. */
module Text {

  predicate EndsWith(s: string, suffix: string) {
    |suffix| <= |s| && s[|s| - |suffix|..] == suffix
  }

  /** Wildcard match of Redis `KEYS` and of the message bus: `*` stands for any run
      of characters.  (The patterns in use contain no other wildcard.) */
  predicate Glob(pattern: string, s: string)
    decreases |pattern|, |s|
  {
    if pattern == "" then s == ""
    else if pattern[0] == '*' then Glob(pattern[1..], s) || (s != "" && Glob(pattern, s[1..]))
    else s != "" && pattern[0] == s[0] && Glob(pattern[1..], s[1..])
  }

  lemma {:induction false} GlobLiteral(pattern: string, s: string)
    requires '*' !in pattern
    ensures Glob(pattern, s) <==> pattern == s
  {
    if pattern != "" && s != "" && pattern[0] == s[0] {
      GlobLiteral(pattern[1..], s[1..]);
      assert pattern == [pattern[0]] + pattern[1..] && s == [s[0]] + s[1..];
    }
  }

  lemma {:induction false} GlobAnyThen(post: string, s: string)
    requires '*' !in post
    ensures Glob("*" + post, s) <==> EndsWith(s, post)
    decreases |s|
  {
    assert ("*" + post)[1..] == post;
    GlobLiteral(post, s);
    if s != "" {
      GlobAnyThen(post, s[1..]);
      if |post| < |s| {
        assert s[|s| - |post|..] == s[1..][|s| - 1 - |post|..];
      }
    }
  }

  /** A pattern with one star matches exactly the strings framed by its two literal parts. */
  lemma {:induction false} GlobOneStar(pre: string, post: string, s: string)
    requires '*' !in pre && '*' !in post
    ensures Glob(pre + "*" + post, s)
       <==> |pre| + |post| <= |s| && pre <= s && EndsWith(s, post)
  {
    var pattern := pre + "*" + post;
    if pre == "" {
      assert pattern == "*" + post;
      GlobAnyThen(post, s);
    } else {
      assert pattern[0] == pre[0] && pattern[1..] == pre[1..] + "*" + post;
      if s != "" && s[0] == pre[0] {
        GlobOneStar(pre[1..], post, s[1..]);
        assert pre <= s <==> pre[1..] <= s[1..] by {
          assert pre == [pre[0]] + pre[1..] && s == [s[0]] + s[1..];
        }
        if |pre| + |post| <= |s| {
          assert s[|s| - |post|..] == s[1..][|s| - 1 - |post|..];
        }
      }
    }
  }

  /** What Python's `rsplit(":", 1)[-1]` returns: the text after the last colon. */
  function AfterLastColon(s: string): (r: string)
    ensures ':' !in r && EndsWith(s, r)
    ensures |r| < |s| ==> s[|s| - |r| - 1] == ':'
  {
    if s == "" || s[|s| - 1] == ':' then ""
    else
      var r := AfterLastColon(s[..|s| - 1]);
      r + [s[|s| - 1]]
  }

  /** Splitting a joined string at its last colon gives back the part that was joined on,
      exactly when that part has no colon of its own. */
  lemma {:induction false} AfterLastColonOfJoin(head: string, tail: string)
    ensures AfterLastColon(head + ":" + tail) == tail <==> ':' !in tail
  {
    var s := head + ":" + tail;
    if ':' !in tail && tail != "" {
      var front := tail[..|tail| - 1];
      AfterLastColonOfJoin(head, front);
      assert s[|s| - 1] == tail[|tail| - 1] && tail[|tail| - 1] in tail;
      assert s[..|s| - 1] == head + ":" + front;
      assert tail == front + [tail[|tail| - 1]];
    }
  }

  /** Two joins with colon-free right parts agree only if both parts agree. */
  lemma JoinInjective(head1: string, tail1: string, head2: string, tail2: string)
    requires ':' !in tail1 && ':' !in tail2
    requires head1 + ":" + tail1 == head2 + ":" + tail2
    ensures head1 == head2 && tail1 == tail2
  {
    AfterLastColonOfJoin(head1, tail1);
    AfterLastColonOfJoin(head2, tail2);
    assert head1 == (head1 + ":" + tail1)[..|head1|];
    assert head2 == (head2 + ":" + tail2)[..|head2|];
  }

  /** Order by code points, as strings compare in Python. */
  predicate Leq(s: string, t: string) {
    s == "" || (t != "" && (s[0] < t[0] || (s[0] == t[0] && Leq(s[1..], t[1..]))))
  }

  lemma {:induction false} LeqTotal(s: string, t: string)
    ensures Leq(s, t) || Leq(t, s)
  {
    if s != "" && t != "" {
      LeqTotal(s[1..], t[1..]);
    }
  }

  predicate Ascending(ss: seq<string>) {
    |ss| < 2 || (Leq(ss[0], ss[1]) && Ascending(ss[1..]))
  }

  function Inserted(ss: seq<string>, t: string): (r: seq<string>)
    ensures multiset(r) == multiset(ss) + multiset{t}
    ensures r != [] && (r[0] == t || (ss != [] && r[0] == ss[0]))
  {
    if ss == [] || Leq(t, ss[0]) then [t] + ss
    else
      assert ss == [ss[0]] + ss[1..];
      [ss[0]] + Inserted(ss[1..], t)
  }

  lemma {:induction false} InsertedAscends(ss: seq<string>, t: string)
    requires Ascending(ss)
    ensures Ascending(Inserted(ss, t))
  {
    if ss != [] {
      LeqTotal(ss[0], t);
      if Leq(t, ss[0]) {
        assert ([t] + ss)[1..] == ss;
      } else {
        InsertedAscends(ss[1..], t);
        assert Inserted(ss, t)[1..] == Inserted(ss[1..], t);
      }
    }
  }

  /** What Python's `sorted` returns. */
  function Sorted(ss: seq<string>): (r: seq<string>)
    ensures Ascending(r) && multiset(r) == multiset(ss)
  {
    if ss == [] then []
    else
      assert ss == [ss[0]] + ss[1..];
      InsertedAscends(Sorted(ss[1..]), ss[0]);
      Inserted(Sorted(ss[1..]), ss[0])
  }
}
