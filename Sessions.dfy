/** Per-session chat history on the server (server/server.js, `sessions`,
    `MAX_HISTORY` and `updateSession`): each session keeps only its last eight
    messages, oldest first. */
module Sessions {
  import opened Generation

  const MaxHistory: nat := 8

  /** `s.slice(-n)` for a positive `n`: the last `n` elements, or all of `s`
      when it is shorter. */
  function LastN<T>(s: seq<T>, n: nat): (r: seq<T>)
    requires n > 0
    ensures |r| <= n && |r| <= |s|
    ensures |s| <= n ==> r == s
    ensures |s| > n ==> |r| == n
    ensures r == s[|s| - |r|..]
  {
    if |s| <= n then s else s[|s| - n..]
  }

  /** The messages one exchange contributes: the user's turn, then the
      assistant's when it said something (an empty reply is not stored). */
  function Turn(userText: string, spokenText: string): (r: seq<Message>)
    ensures 1 <= |r| <= 2 && r[0] == Message(User, userText)
    ensures |r| == 2 <==> spokenText != ""
    ensures |r| == 2 ==> r[1] == Message(Assistant, spokenText)
  {
    [Message(User, userText)] + (if spokenText != "" then [Message(Assistant, spokenText)] else [])
  }

  /** The history `updateSession` stores: the last `MaxHistory` messages of the
      old history followed by the new exchange. It always holds the new user
      message, last or just before the assistant's reply. */
  function NextHistory(history: seq<Message>, userText: string, spokenText: string): (r: seq<Message>)
    ensures 0 < |r| <= MaxHistory
    ensures spokenText == "" ==> r[|r| - 1] == Message(User, userText)
    ensures spokenText != "" ==>
      |r| >= 2 && r[|r| - 2] == Message(User, userText) && r[|r| - 1] == Message(Assistant, spokenText)
  {
    LastN(history + Turn(userText, spokenText), MaxHistory)
  }

  /** The new history is bounded, ends with the new exchange, keeps the order of
      what it retains, and drops nothing while the bound is not reached. */
  lemma NextHistoryShape(history: seq<Message>, userText: string, spokenText: string)
    requires |history| <= MaxHistory
    ensures var r, t := NextHistory(history, userText, spokenText), Turn(userText, spokenText);
      && |r| <= MaxHistory
      && r[|r| - |t|..] == t
      && r[..|r| - |t|] == history[|history| + |t| - |r|..]
      && (|history| + |t| <= MaxHistory ==> r == history + t)
      && (|history| + |t| > MaxHistory ==> |r| == MaxHistory)
  {
    var r, t := NextHistory(history, userText, spokenText), Turn(userText, spokenText);
    var full := history + t;
    assert r == full[|full| - |r|..];
    assert r[|r| - |t|..] == full[|history|..];
    assert r[..|r| - |t|] == full[|full| - |r|..|history|];
  }

  /** The whole conversation of a session, as the messages of its exchanges. */
  function Transcript(turns: seq<(string, string)>): seq<Message> {
    if turns == [] then []
    else Transcript(turns[..|turns| - 1]) + Turn(turns[|turns| - 1].0, turns[|turns| - 1].1)
  }

  /** The history after a sequence of exchanges, each stored by `updateSession`. */
  function Replay(turns: seq<(string, string)>): seq<Message> {
    if turns == [] then []
    else NextHistory(Replay(turns[..|turns| - 1]), turns[|turns| - 1].0, turns[|turns| - 1].1)
  }

  /** Trimming the stored history before appending loses nothing that the next
      trim would have kept. */
  lemma LastNAppend<T>(s: seq<T>, t: seq<T>, n: nat)
    requires n > 0
    ensures LastN(LastN(s, n) + t, n) == LastN(s + t, n)
  {
    var a := LastN(s, n);
    if |s| > n {
      var k := |s| - n;
      assert s + t == s[..k] + (a + t);
      if |a + t| > n {
        assert (s + t)[|s + t| - n..] == (a + t)[|a + t| - n..];
      } else {
        assert |a + t| == n;
      }
    }
  }

  /** However many exchanges a session has had, its stored history is exactly
      the last `MaxHistory` messages of its whole conversation. */
  lemma {:induction false} ReplayIsTranscriptTail(turns: seq<(string, string)>)
    ensures Replay(turns) == LastN(Transcript(turns), MaxHistory)
  {
    if turns != [] {
      var init := turns[..|turns| - 1];
      var last := turns[|turns| - 1];
      ReplayIsTranscriptTail(init);
      LastNAppend(Transcript(init), Turn(last.0, last.1), MaxHistory);
    }
  }

  /** The map of session histories (`sessions`). */
  class SessionStore {
    var sessions: map<string, seq<Message>>

    /** Every stored history is within the bound. */
    ghost predicate Valid()
      reads this
    {
      forall id :: id in sessions ==> |sessions[id]| <= MaxHistory
    }

    constructor()
      ensures sessions == map[] && Valid()
    {
      sessions := map[];
    }

    /** `sessions.get(sessionId) || []` */
    function History(id: string): (r: seq<Message>)
      reads this
      ensures Valid() ==> |r| <= MaxHistory
      ensures id !in sessions ==> r == []
      ensures id in sessions ==> r == sessions[id]
    {
      if id in sessions then sessions[id] else []
    }

    /** `updateSession(sessionId, userText, spokenText)`: only `sessionId`'s
        history changes, to the trimmed history with the new exchange. */
    method UpdateSession(id: string, userText: string, spokenText: string)
      requires Valid()
      modifies this
      ensures Valid()
      ensures sessions == old(sessions)[id := NextHistory(old(History(id)), userText, spokenText)]
    {
      var history := History(id);
      var next := history + [Message(User, userText)];
      if spokenText != "" {
        next := next + [Message(Assistant, spokenText)];
      }
      assert next == history + Turn(userText, spokenText);
      var trimmed := LastN(next, MaxHistory);
      sessions := sessions[id := trimmed];
    }
  }
}
