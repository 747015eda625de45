/** The conversation-loop heuristic of `handle_message`: among the most recent
    turns, does some fixed marker phrase show up in two or more user turns? */
module LoopDetector {
  import opened Text
  import opened Conversation

  /** Only this many of the most recent turns are examined. */
  const Window: nat := 6
  /** A window shorter than this never signals a loop. */
  const MinTurns: nat := 4
  /** A marker must appear in at least this many user turns. */
  const Threshold: nat := 2

  /** Assistant-like phrasing whose repetition by the user signals a loop. */
  const Markers: seq<string> := [
    "AI coach", "support you", "dive into", "let's focus",
    "break the cycle", "What specific", "what you're hoping", "I'm here to help"
  ]

  /** The contents of the `user` turns, in order. */
  function UserContents(w: seq<Turn>): (r: seq<string>)
    ensures |r| <= |w|
  {
    if w == [] then []
    else
      var last := w[|w| - 1];
      UserContents(w[..|w| - 1]) + (if last.author == User then [last.content] else [])
  }

  /** How many messages contain the phrase, ignoring case. */
  function MatchCount(msgs: seq<string>, phrase: string): (n: nat)
    ensures n <= |msgs|
  {
    if msgs == [] then 0
    else
      MatchCount(msgs[..|msgs| - 1], phrase)
      + (if ContainsIgnoringCase(msgs[|msgs| - 1], phrase) then 1 else 0)
  }

  /** Some marker phrase is found in at least `Threshold` of the messages. */
  predicate SomeMarkerRepeats(users: seq<string>) {
    exists k :: 0 <= k < |Markers| && MatchCount(users, Markers[k]) >= Threshold
  }

  /** The verdict as the service computes it: take the recent window, keep the
      user contents, and count matches per marker. */
  function IsLoop(history: seq<Turn>): (loop: bool)
    ensures |history| < MinTurns ==> !loop
  {
    var recent := Recent(history, Window);
    |recent| >= MinTurns && SomeMarkerRepeats(UserContents(recent))
  }

  /** A user turn whose content contains the phrase, ignoring case. */
  predicate UserTurnMentions(t: Turn, phrase: string) {
    t.author == User && ContainsIgnoringCase(t.content, phrase)
  }

  /** Two distinct user turns of `w` both mention the phrase. */
  ghost predicate SharedByTwoUserTurns(w: seq<Turn>, phrase: string) {
    exists i, j :: 0 <= i < j < |w| && UserTurnMentions(w[i], phrase) && UserTurnMentions(w[j], phrase)
  }

  /** Reference definition of a loop, independent of any counting: the window
      is long enough and two distinct user turns in it share a marker. */
  ghost predicate RepeatsMarker(history: seq<Turn>) {
    var recent := Recent(history, Window);
    && |recent| >= MinTurns
    && exists k :: 0 <= k < |Markers| && SharedByTwoUserTurns(recent, Markers[k])
  }

  /** Counting user matches over a window steps back one turn at a time. */
  lemma MatchCountStep(w: seq<Turn>, phrase: string)
    requires |w| > 0
    ensures MatchCount(UserContents(w), phrase)
         == MatchCount(UserContents(w[..|w| - 1]), phrase)
            + (if UserTurnMentions(w[|w| - 1], phrase) then 1 else 0)
  {
    var front := UserContents(w[..|w| - 1]);
    var last := w[|w| - 1];
    if last.author == User {
      assert UserContents(w) == front + [last.content];
      assert (front + [last.content])[..|front|] == front;
    } else {
      assert UserContents(w) == front;
    }
  }

  /** At least one user match exactly when some user turn mentions the phrase. */
  lemma {:induction false} CountAtLeastOne(w: seq<Turn>, phrase: string)
    ensures MatchCount(UserContents(w), phrase) >= 1
        <==> exists i :: 0 <= i < |w| && UserTurnMentions(w[i], phrase)
  {
    if w != [] {
      var front := w[..|w| - 1];
      MatchCountStep(w, phrase);
      CountAtLeastOne(front, phrase);
      if exists i :: 0 <= i < |w| && UserTurnMentions(w[i], phrase) {
        var i :| 0 <= i < |w| && UserTurnMentions(w[i], phrase);
        if i < |front| {
          assert UserTurnMentions(front[i], phrase);
        }
      }
      if exists i :: 0 <= i < |front| && UserTurnMentions(front[i], phrase) {
        var i :| 0 <= i < |front| && UserTurnMentions(front[i], phrase);
        assert UserTurnMentions(w[i], phrase);
      }
    }
  }

  /** Two or more user matches exactly when two distinct user turns mention the phrase. */
  lemma {:induction false} CountAtLeastTwo(w: seq<Turn>, phrase: string)
    ensures MatchCount(UserContents(w), phrase) >= 2 <==> SharedByTwoUserTurns(w, phrase)
  {
    if w != [] {
      var front := w[..|w| - 1];
      var n := |w| - 1;
      MatchCountStep(w, phrase);
      CountAtLeastTwo(front, phrase);
      CountAtLeastOne(front, phrase);
      if SharedByTwoUserTurns(w, phrase) {
        var i, j :| 0 <= i < j < |w| && UserTurnMentions(w[i], phrase) && UserTurnMentions(w[j], phrase);
        assert UserTurnMentions(front[i], phrase);
        if j < n {
          assert UserTurnMentions(front[j], phrase);
          assert SharedByTwoUserTurns(front, phrase);
        }
      }
      if SharedByTwoUserTurns(front, phrase) {
        var i, j :| 0 <= i < j < |front| && UserTurnMentions(front[i], phrase) && UserTurnMentions(front[j], phrase);
        assert UserTurnMentions(w[i], phrase) && UserTurnMentions(w[j], phrase);
      }
      if UserTurnMentions(w[n], phrase) && MatchCount(UserContents(front), phrase) >= 1 {
        var i :| 0 <= i < |front| && UserTurnMentions(front[i], phrase);
        assert UserTurnMentions(w[i], phrase);
        assert SharedByTwoUserTurns(w, phrase);
      }
    }
  }

  /** The counting verdict agrees with the reference definition, both ways. */
  lemma IsLoopMatchesReference(history: seq<Turn>)
    ensures IsLoop(history) <==> RepeatsMarker(history)
  {
    var recent := Recent(history, Window);
    forall k | 0 <= k < |Markers|
      ensures MatchCount(UserContents(recent), Markers[k]) >= Threshold
          <==> SharedByTwoUserTurns(recent, Markers[k])
    {
      CountAtLeastTwo(recent, Markers[k]);
    }
  }

  /** Turns older than the window never affect the verdict. */
  lemma LoopIgnoresOlderTurns(older: seq<Turn>, history: seq<Turn>)
    requires |history| >= Window
    ensures IsLoop(older + history) == IsLoop(history)
  {
    RecentIgnoresOlder(older, history, Window);
  }

  /** Two windows of equal length whose user turns coincide position by position;
      the other turns are arbitrary. */
  ghost predicate SameUserTurns(w1: seq<Turn>, w2: seq<Turn>) {
    && |w1| == |w2|
    && forall i :: 0 <= i < |w1| && (w1[i].author == User || w2[i].author == User) ==> w1[i] == w2[i]
  }

  lemma {:induction false} UserContentsOfSameUserTurns(w1: seq<Turn>, w2: seq<Turn>)
    requires SameUserTurns(w1, w2)
    ensures UserContents(w1) == UserContents(w2)
  {
    if w1 != [] {
      var n := |w1| - 1;
      assert SameUserTurns(w1[..n], w2[..n]) by {
        forall i | 0 <= i < n && (w1[..n][i].author == User || w2[..n][i].author == User)
          ensures w1[..n][i] == w2[..n][i]
        {
          assert w1[..n][i] == w1[i] && w2[..n][i] == w2[i];
        }
      }
      UserContentsOfSameUserTurns(w1[..n], w2[..n]);
    }
  }

  /** The content of non-user turns does not matter: histories whose windows
      have equal length and agree on every user turn get the same verdict.
      Non-user turns still count toward the window's length. */
  lemma LoopIgnoresNonUserTurns(h1: seq<Turn>, h2: seq<Turn>)
    requires SameUserTurns(Recent(h1, Window), Recent(h2, Window))
    ensures IsLoop(h1) == IsLoop(h2)
  {
    UserContentsOfSameUserTurns(Recent(h1, Window), Recent(h2, Window));
  }

  /** Non-user turns take part through the window's length: two user turns that
      share a marker are a loop once two assistant turns follow, but not alone. */
  lemma NonUserTurnsCountTowardWindow()
    ensures var u, a := Turn(User, "let's focus"), Turn(Assistant, "ok");
      IsLoop([u, u, a, a]) && !IsLoop([u, u])
  {
    var u, a := Turn(User, "let's focus"), Turn(Assistant, "ok");
    var h := [u, u, a, a];
    assert Markers[3] == "let's focus";
    ExactImpliesIgnoringCase(u.content, Markers[3]);
    assert UserTurnMentions(h[0], Markers[3]) && UserTurnMentions(h[1], Markers[3]);
    assert Recent(h, Window) == h;
    assert SharedByTwoUserTurns(Recent(h, Window), Markers[3]);
    IsLoopMatchesReference(h);
  }

  /** The list comprehension `[msg["content"] for msg in window if msg["role"] == "user"]`. */
  method CollectUserContents(recent: seq<Turn>) returns (users: seq<string>)
    ensures users == UserContents(recent)
  {
    users := [];
    var i := 0;
    while i < |recent|
      invariant 0 <= i <= |recent|
      invariant users == UserContents(recent[..i])
    {
      assert recent[..i + 1][..i] == recent[..i];
      if recent[i].author == User {
        users := users + [recent[i].content];
      }
      i := i + 1;
    }
    assert recent[..i] == recent;
  }

  /** The generator sum `sum(1 for msg in users if phrase.lower() in msg.lower())`. */
  method CountMatches(users: seq<string>, phrase: string) returns (matches: nat)
    ensures matches == MatchCount(users, phrase)
  {
    matches := 0;
    var m := 0;
    while m < |users|
      invariant 0 <= m <= |users|
      invariant matches == MatchCount(users[..m], phrase)
    {
      assert users[..m + 1][..m] == users[..m];
      if ContainsIgnoringCase(users[m], phrase) {
        matches := matches + 1;
      }
      m := m + 1;
    }
    assert users[..m] == users;
  }

  /** The `for phrase in [...]` scan with its early `break`. */
  method ScanMarkers(users: seq<string>) returns (found: bool)
    ensures found == SomeMarkerRepeats(users)
  {
    found := false;
    var k := 0;
    while k < |Markers|
      invariant 0 <= k <= |Markers|
      invariant forall j :: 0 <= j < k ==> MatchCount(users, Markers[j]) < Threshold
    {
      var matches := CountMatches(users, Markers[k]);
      if matches >= Threshold {
        found := true;
        break;
      }
      k := k + 1;
    }
  }

  /** The detection step written the way the service runs it: slice the
      window, and only when it is long enough collect the user contents and
      scan the markers. */
  method DetectLoop(history: seq<Turn>) returns (loop: bool)
    ensures loop == IsLoop(history)
    ensures loop <==> RepeatsMarker(history)
  {
    IsLoopMatchesReference(history);
    var recent := if |history| >= Window then history[|history| - Window..] else history;
    assert recent == Recent(history, Window);
    loop := false;
    if |recent| >= MinTurns {
      var users := CollectUserContents(recent);
      loop := ScanMarkers(users);
    }
  }
}
