/** Terminal session IDs are stored as "obx:<owner>:<session>" so that one owner's session
    cannot be named by another (task_owner_scope.go). */
module OwnerScope {
  import opened Prelude
  import opened Text

  const SCOPE_PREFIX := "obx"
  const SEPARATOR := ":"
  const REQUEST_SEPARATOR := "\0"

  /** What every scoped ID of the (trimmed) owner starts with. */
  function OwnerPrefix(owner: string): string {
    SCOPE_PREFIX + SEPARATOR + owner + SEPARATOR
  }

  function Scope(owner: string, session: string): string {
    var o, s := Trim(owner), Trim(session);
    if o == "" || s == "" then s else OwnerPrefix(o) + s
  }

  function Unscope(owner: string, scoped: string): Option<string> {
    var o, s := Trim(owner), Trim(scoped);
    if s == "" then None
    else if o == "" then Some(s)
    else if !(OwnerPrefix(o) <= s) then None
    else
      var external := Trim(s[|OwnerPrefix(o)|..]);
      if external == "" then None else Some(external)
  }

  function KeyOf(owner: string, request: string): string {
    owner + REQUEST_SEPARATOR + request
  }

  /** The reservation key of a submit carrying a request ID. */
  function RequestKey(owner: string, request: string): string {
    KeyOf(Trim(owner), Trim(request))
  }

  // ---------- One owner ----------

  lemma ScopeIsTight(owner: string, session: string)
    ensures Tight(Scope(owner, session))
  {
    TrimTight(session);
    var o, s := Trim(owner), Trim(session);
    if o != "" && s != "" {
      var r := OwnerPrefix(o) + s;
      assert r[0] == 'o' && r[|r| - 1] == s[|s| - 1];
    }
  }

  /** Unscoping undoes scoping for every owner and session, and refuses exactly the blank session. */
  lemma RoundTrip(owner: string, session: string)
    ensures Unscope(owner, Scope(owner, session))
         == if Trim(session) == "" then None else Some(Trim(session))
  {
    var o, s := Trim(owner), Trim(session);
    TrimTight(session);
    ScopeIsTight(owner, session);
    TrimTight(Scope(owner, session));
    TrimTight(s);
    if o != "" && s != "" {
      assert (OwnerPrefix(o) + s)[|OwnerPrefix(o)|..] == s;
    }
  }

  // ---------- Two owners ----------

  /** On a tight ID, unscoping succeeds exactly when something follows the owner's prefix. */
  lemma UnscopeSucceeds(owner: string, scoped: string)
    requires Trim(owner) != "" && Tight(scoped)
    ensures Unscope(owner, scoped).Some? <==> OwnerPrefix(Trim(owner)) < scoped
  {
    var prefix := OwnerPrefix(Trim(owner));
    assert Trim(scoped) == scoped by {
      TrimTight(scoped);
    }
    if prefix <= scoped {
      var rest := scoped[|prefix|..];
      assert Trim(rest) != "" <==> rest != "" by {
        TrimTight("");
        if rest != "" {
          assert rest[|rest| - 1] == scoped[|scoped| - 1];
          TrimKeepsInk(rest);
        }
      }
    }
  }

  /** A string with a visible last character does not trim to nothing. */
  lemma TrimKeepsInk(s: string)
    requires s != "" && !IsSpace(s[|s| - 1])
    ensures Trim(s) != ""
  {
    TrimLeftKeepsInk(s);
  }

  lemma {:induction false} TrimLeftKeepsInk(s: string)
    requires s != "" && !IsSpace(s[|s| - 1])
    ensures TrimLeft(s) != "" && TrimLeft(s)[|TrimLeft(s)| - 1] == s[|s| - 1]
  {
    if IsSpace(s[0]) {
      TrimLeftKeepsInk(s[1..]);
    }
  }

  /** `b` is `a` continued after a separator. */
  predicate Continues(a: string, b: string) {
    a + SEPARATOR <= b
  }

  /** `b` continues `a`, and a trimmed session ID can supply the continuation. */
  predicate ReachesPast(a: string, b: string) {
    Continues(a, b) && (|b| > |a| + 1 ==> !IsSpace(b[|a| + 1]))
  }

  /** Comparing prefixes with the fixed part cancelled. */
  lemma PrefixCancels(o: string, m: string, s: string)
    ensures OwnerPrefix(o) < OwnerPrefix(m) + s <==> o + SEPARATOR < m + SEPARATOR + s
  {
    var p := SCOPE_PREFIX + SEPARATOR;
    var x, y := o + SEPARATOR, m + SEPARATOR + s;
    assert OwnerPrefix(o) == p + x && OwnerPrefix(m) + s == p + y;
    assert (p + x)[|p|..] == x && (p + y)[|p|..] == y;
    if x < y {
      assert (p + y)[..|p + x|] == p + x;
    }
    if p + x < p + y {
      assert y[..|x|] == (p + y)[..|p + x|][|p|..];
    }
  }

  /** The sessions for which a prefix comparison between two different names can succeed. */
  lemma PrefixMeansContinuation(m: string, o: string, s: string)
    requires m != o && s != "" && Tight(s)
    requires o + SEPARATOR < m + SEPARATOR + s
    ensures Continues(o, m) || ReachesPast(m, o)
  {
    var whole := m + SEPARATOR + s;
    assert whole[..|o| + 1] == o + SEPARATOR;
    if |o| < |m| {
      assert m[..|o| + 1] == whole[..|o| + 1];
    } else {
      assert o == whole[..|o|] && m == whole[..|m|];
      if |o| > |m| {
        assert o[..|m| + 1] == whole[..|m| + 1] == m + SEPARATOR;
        if |o| > |m| + 1 {
          assert o[|m| + 1] == s[0];
        }
      }
    }
  }

  /** When one name continues the other, this session gets across. */
  lemma ContinuationLeaks(m: string, o: string, session: string)
    requires Continues(o, m) || ReachesPast(m, o)
    requires session == if Continues(o, m) then "z" else o[|m| + 1..] + ":z"
    ensures session != "" && Tight(session)
    ensures o + SEPARATOR < m + SEPARATOR + session
  {
    if Continues(o, m) {
      assert m + SEPARATOR + session == o + SEPARATOR + (m[|o| + 1..] + SEPARATOR + session);
    } else {
      assert m + SEPARATOR + o[|m| + 1..] == o;
      assert m + SEPARATOR + session == o + SEPARATOR + "z";
    }
  }

  /** The test that decides whether `other` can read back a session of `mine`. */
  lemma CrossOwnerTest(mine: string, other: string, session: string)
    requires Trim(mine) != "" && Trim(other) != "" && Trim(session) != ""
    ensures Unscope(other, Scope(mine, session)).Some?
       <==> Trim(other) + SEPARATOR < Trim(mine) + SEPARATOR + Trim(session)
  {
    ScopeIsTight(mine, session);
    UnscopeSucceeds(other, Scope(mine, session));
    PrefixCancels(Trim(other), Trim(mine), Trim(session));
  }

  /** Every session of `mine` stays closed to a different owner exactly when neither name
      continues the other past a separator. */
  lemma CrossOwnerExactly(mine: string, other: string)
    requires Trim(mine) != "" && Trim(other) != "" && Trim(mine) != Trim(other)
    ensures (forall session :: Trim(session) != "" ==> Unscope(other, Scope(mine, session)) == None)
       <==> !Continues(Trim(other), Trim(mine)) && !ReachesPast(Trim(mine), Trim(other))
  {
    var m, o := Trim(mine), Trim(other);
    if Continues(o, m) || ReachesPast(m, o) {
      var session := if Continues(o, m) then "z" else o[|m| + 1..] + ":z";
      ContinuationLeaks(m, o, session);
      TrimTight(session);
      CrossOwnerTest(mine, other, session);
    } else {
      forall session | Trim(session) != ""
        ensures Unscope(other, Scope(mine, session)) == None
      {
        CrossOwnerTest(mine, other, session);
        TrimTight(session);
        if o + SEPARATOR < m + SEPARATOR + Trim(session) {
          PrefixMeansContinuation(m, o, Trim(session));
        }
      }
    }
  }

  lemma ContinuationHasSeparator(a: string, b: string)
    requires Continues(a, b)
    ensures ':' in b
  {
    assert b[|a|] == (a + SEPARATOR)[|a|];
  }

  /** Owners without the separator are always apart. */
  lemma ColonFreeOwnersAreApart(mine: string, other: string, session: string)
    requires Trim(mine) != "" && Trim(other) != "" && Trim(mine) != Trim(other) && Trim(session) != ""
    requires ':' !in Trim(mine) && ':' !in Trim(other)
    ensures Unscope(other, Scope(mine, session)) == None
  {
    var m, o := Trim(mine), Trim(other);
    if Continues(o, m) {
      ContinuationHasSeparator(o, m);
    } else if Continues(m, o) {
      ContinuationHasSeparator(m, o);
    } else {
      CrossOwnerExactly(mine, other);
    }
  }

  /** Scoping is injective in the trimmed owner and session, for owners without the separator. */
  lemma ScopeInjective(o1: string, s1: string, o2: string, s2: string)
    requires Trim(o1) != "" && Trim(o2) != "" && Trim(s1) != "" && Trim(s2) != ""
    requires ':' !in Trim(o1) && ':' !in Trim(o2)
    requires Scope(o1, s1) == Scope(o2, s2)
    ensures Trim(o1) == Trim(o2) && Trim(s1) == Trim(s2)
  {
    RoundTrip(o1, s1);
    RoundTrip(o2, s2);
    if Trim(o1) != Trim(o2) {
      ColonFreeOwnersAreApart(o1, o2, s1);
    }
  }

  lemma TightJoin(a: string, between: string, b: string)
    requires Tight(a) && Tight(b) && a != "" && b != ""
    ensures Tight(a + between + b)
  {
    var ab := a + between + b;
    assert ab[0] == a[0] && ab[|ab| - 1] == b[|b| - 1];
  }

  lemma ScopeOfTight(owner: string, session: string)
    requires Tight(owner) && Tight(session) && owner != "" && session != ""
    ensures Trim(session) == session
    ensures Scope(owner, session) == OwnerPrefix(owner) + session
  {
    TrimTight(owner);
    TrimTight(session);
  }

  /** With a separator in the owner, different pairs share one scoped ID, and the second owner
      reads back a session it never named. */
  lemma ScopeCollides(a: string, b: string, c: string)
    requires Tight(a) && Tight(b) && Tight(c) && a != "" && b != "" && c != ""
    ensures Scope(a, b + SEPARATOR + c) == Scope(a + SEPARATOR + b, c)
    ensures Unscope(a + SEPARATOR + b, Scope(a, b + SEPARATOR + c)) == Some(c)
  {
    var ab, bc := a + SEPARATOR + b, b + SEPARATOR + c;
    TightJoin(a, SEPARATOR, b);
    TightJoin(b, SEPARATOR, c);
    ScopeOfTight(a, bc);
    ScopeOfTight(ab, c);
    assert OwnerPrefix(a) + bc == OwnerPrefix(ab) + c;
    RoundTrip(ab, c);
  }

  // ---------- Request keys ----------

  /** The key does not see white space around the owner or the request. */
  lemma KeyOfTrimmed(owner: string, request: string)
    ensures RequestKey(Trim(owner), Trim(request)) == RequestKey(owner, request)
    ensures RequestKey(owner, request) == KeyOf(Trim(owner), Trim(request))
    ensures Tight(Trim(owner)) && Tight(Trim(request))
  {
    TrimTight(owner);
    TrimTight(request);
    TrimTight(Trim(owner));
    TrimTight(Trim(request));
    hide Trim;
  }

  /** The second owner is the first one, the separator and the start of the first request. */
  predicate KeysMeet(o1: string, r1: string, o2: string, r2: string) {
    |o1| < |o2| && o1 + REQUEST_SEPARATOR <= o2 && r1 == o2[|o1| + 1..] + REQUEST_SEPARATOR + r2
  }

  lemma JoinedKeys(o1: string, r1: string, o2: string, r2: string)
    requires |o1| < |o2|
    ensures o1 + REQUEST_SEPARATOR + r1 == o2 + REQUEST_SEPARATOR + r2 <==> KeysMeet(o1, r1, o2, r2)
  {
    var x, y := o1 + REQUEST_SEPARATOR + r1, o2 + REQUEST_SEPARATOR + r2;
    if x == y {
      assert o2 == y[..|o2|] && x[..|o1| + 1] == o1 + REQUEST_SEPARATOR;
      assert o2[..|o1| + 1] == x[..|o1| + 1];
      assert r1 == x[|o1| + 1..] == y[|o1| + 1..];
      assert y[|o1| + 1..] == o2[|o1| + 1..] + REQUEST_SEPARATOR + r2;
    }
    if KeysMeet(o1, r1, o2, r2) {
      assert o2 == o1 + REQUEST_SEPARATOR + o2[|o1| + 1..];
    }
  }

  /** Two requests have one key exactly if they are one request of one owner, or one owner's name is the
      other's continued past the separator. */
  lemma KeysMeetExactly(owner1: string, request1: string, owner2: string, request2: string)
    ensures var o1, r1, o2, r2 := Trim(owner1), Trim(request1), Trim(owner2), Trim(request2);
            RequestKey(owner1, request1) == RequestKey(owner2, request2) <==>
            (o1 == o2 && r1 == r2) || KeysMeet(o1, r1, o2, r2) || KeysMeet(o2, r2, o1, r1)
  {
    hide Trim, KeysMeet;
    var o1, r1, o2, r2 := Trim(owner1), Trim(request1), Trim(owner2), Trim(request2);
    if |o1| < |o2| {
      JoinedKeys(o1, r1, o2, r2);
      NotBothWays(o1, r1, o2, r2);
    } else if |o2| < |o1| {
      JoinedKeys(o2, r2, o1, r1);
      NotBothWays(o2, r2, o1, r1);
    } else {
      var x, y := o1 + REQUEST_SEPARATOR + r1, o2 + REQUEST_SEPARATOR + r2;
      assert x[..|o1|] == o1 && y[..|o2|] == o2 && x[|o1| + 1..] == r1 && y[|o2| + 1..] == r2;
      NotBothWays(o1, r1, o2, r2);
      NotBothWays(o2, r2, o1, r1);
    }
  }

  lemma NotBothWays(o1: string, r1: string, o2: string, r2: string)
    ensures KeysMeet(o2, r2, o1, r1) ==> |o2| < |o1|
  {
  }

  lemma MeetingNeedsSeparator(o1: string, r1: string, o2: string, r2: string)
    ensures KeysMeet(o1, r1, o2, r2) ==> '\0' in o2
  {
    if KeysMeet(o1, r1, o2, r2) {
      assert o2[|o1|] == (o1 + REQUEST_SEPARATOR)[|o1|] == '\0';
    }
  }

  /** Owners without the separator never share a key, nor do two requests of one owner. */
  lemma KeysTellRequestsApart(owner1: string, request1: string, owner2: string, request2: string)
    requires '\0' !in Trim(owner1) && '\0' !in Trim(owner2)
    ensures RequestKey(owner1, request1) == RequestKey(owner2, request2)
       <==> Trim(owner1) == Trim(owner2) && Trim(request1) == Trim(request2)
  {
    hide Trim, KeysMeet, RequestKey;
    KeysMeetExactly(owner1, request1, owner2, request2);
    MeetingNeedsSeparator(Trim(owner1), Trim(request1), Trim(owner2), Trim(request2));
    MeetingNeedsSeparator(Trim(owner2), Trim(request2), Trim(owner1), Trim(request1));
  }

  /** With the separator in an owner's name two different pairs share one key. */
  lemma KeyCollides(a: string, b: string, c: string)
    requires Tight(a) && Tight(b) && Tight(c) && a != "" && b != "" && c != ""
    ensures RequestKey(a, b + REQUEST_SEPARATOR + c) == RequestKey(a + REQUEST_SEPARATOR + b, c)
  {
    TightJoin(a, REQUEST_SEPARATOR, b);
    TightJoin(b, REQUEST_SEPARATOR, c);
    TrimTight(a);
    TrimTight(c);
    TrimTight(a + REQUEST_SEPARATOR + b);
    TrimTight(b + REQUEST_SEPARATOR + c);
    hide Trim;
  }
}
