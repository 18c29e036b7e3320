/**
 * The in-memory chat-history store of `history_tool.py`: a process-wide
 * dictionary from `user_id + ":" + session_id` to an append-only list of
 * turns, read back as its last `limit` turns and rendered as prompt text.
 */
module HistoryTool {
  import opened TextUtil

  /** One stored exchange, the dictionary `{"user": ..., "agent": ...}`. */
  datatype Turn = Turn(user: string, agent: string)

  /** The dictionary key `f"{user_id}:{session_id}"`. */
  function Key(userId: string, sessionId: string): string
  {
    userId + ":" + sessionId
  }

  function Min(a: int, b: int): int
  {
    if a <= b then a else b
  }

  /**
   * Python's `xs[start:]` for any integer `start`: a negative start counts from
   * the end and is clamped at 0; a start beyond the end gives the empty list.
   */
  function SliceFrom<T>(xs: seq<T>, start: int): seq<T>
  {
    if start < 0 then xs[(if |xs| + start < 0 then 0 else |xs| + start)..]
    else xs[(if start > |xs| then |xs| else start)..]
  }

  /**
   * The list slice `log[-limit:]` of `get_chat_history`. It is always a suffix
   * of `log`; a positive limit keeps the last `min(limit, n)` turns, a limit of
   * 0 keeps all of them (`[-0:]` is `[0:]`) and a negative limit drops `-limit`
   * turns from the front.
   */
  function LastTurns(log: seq<Turn>, limit: int): (r: seq<Turn>)
    ensures |r| <= |log| && r == log[|log| - |r|..]
    ensures limit >= 1 ==> |r| == Min(limit, |log|)
    ensures limit == 0 ==> r == log
    ensures limit < 0 ==> |r| == |log| - Min(-limit, |log|)
  {
    SliceFrom(log, -limit)
  }

  /** The list stored under `key`, or `[]` when it was never created (`dict.get(key, [])`). */
  function LogOf(logs: map<string, seq<Turn>>, key: string): seq<Turn>
  {
    if key in logs then logs[key] else []
  }

  /**
   * The store after `save_chat_turn`: the key's list, created if absent, gets
   * `turn` at its end and every other key keeps its list.
   */
  function Appended(logs: map<string, seq<Turn>>, key: string, turn: Turn): (r: map<string, seq<Turn>>)
    ensures r.Keys == logs.Keys + {key}
    ensures LogOf(r, key) == LogOf(logs, key) + [turn]
    ensures forall k :: k != key ==> LogOf(r, k) == LogOf(logs, k)
  {
    logs[key := LogOf(logs, key) + [turn]]
  }

  /** The module-level `_chat_history_store` and the two functions that use it. */
  class Store {
    var logs: map<string, seq<Turn>>

    constructor ()
      ensures logs == map[]
    {
      logs := map[];
    }

    /**
     * `get_chat_history(user_id, session_id, limit)`: the slice `[-limit:]` of
     * the pair's list, whose meaning for every `limit` is the contract of
     * `LastTurns`.
     */
    function GetChatHistory(userId: string, sessionId: string, limit: int): (r: seq<Turn>)
      reads this
      ensures Key(userId, sessionId) !in logs ==> r == []
      ensures r == LastTurns(LogOf(logs, Key(userId, sessionId)), limit)
    {
      LastTurns(LogOf(logs, Key(userId, sessionId)), limit)
    }

    /** `save_chat_turn(user_id, session_id, user_msg, agent_msg)`. */
    method SaveChatTurn(userId: string, sessionId: string, userMsg: string, agentMsg: string)
      modifies this
      ensures logs == Appended(old(logs), Key(userId, sessionId), Turn(userMsg, agentMsg))
      ensures logs.Keys == old(logs.Keys) + {Key(userId, sessionId)}
      ensures forall k :: k in old(logs) && k != Key(userId, sessionId) ==> logs[k] == old(logs[k])
    {
      var key := Key(userId, sessionId);
      var turn := Turn(userMsg, agentMsg);
      if key !in logs {
        logs := logs[key := []];
      }
      logs := logs[key := logs[key] + [turn]];
    }
  }

  /** A never-saved pair reads as the empty history, whatever the limit. */
  lemma UnsavedKeyReadsEmpty(logs: map<string, seq<Turn>>, userId: string, sessionId: string, limit: int)
    requires Key(userId, sessionId) !in logs
    ensures LastTurns(LogOf(logs, Key(userId, sessionId)), limit) == []
  {
  }

  /** A positive limit returns the last `min(limit, n)` turns, oldest first. */
  lemma PositiveLimitIsTail(log: seq<Turn>, limit: int)
    requires limit >= 1
    ensures var r := LastTurns(log, limit);
      |r| == Min(limit, |log|) && forall i :: 0 <= i < |r| ==> r[i] == log[|log| - |r| + i]
  {
  }

  /** A negative limit drops that many turns from the front instead of keeping the tail. */
  lemma NegativeLimitDropsFront(log: seq<Turn>, limit: int)
    requires limit < 0
    ensures LastTurns(log, limit) == log[Min(-limit, |log|)..]
  {
  }

  /**
   * After a save, a read of the same pair with a positive limit ends with the
   * saved turn and is one longer than before unless the limit already capped it.
   */
  lemma SaveThenRead(logs: map<string, seq<Turn>>, userId: string, sessionId: string,
                     userMsg: string, agentMsg: string, limit: int)
    requires limit >= 1
    ensures var key := Key(userId, sessionId);
      var before := LastTurns(LogOf(logs, key), limit);
      var after := LastTurns(LogOf(Appended(logs, key, Turn(userMsg, agentMsg)), key), limit);
      && after != []
      && after[|after| - 1] == Turn(userMsg, agentMsg)
      && |after| == Min(limit, |LogOf(logs, key)| + 1)
      && (|before| < limit ==> |after| == |before| + 1)
      && (|before| == limit ==> |after| == limit)
  {
  }

  /** A save leaves the reads of every other key as they were. */
  lemma SaveLeavesOtherKeys(logs: map<string, seq<Turn>>, key: string, turn: Turn, other: string, limit: int)
    requires other != key
    ensures LastTurns(LogOf(Appended(logs, key, turn), other), limit) == LastTurns(LogOf(logs, other), limit)
  {
  }

  /** Two different (user, session) pairs can share one key, and so one log. */
  lemma KeysCollide()
    ensures ("a:b", "c") != ("a", "b:c")
    ensures Key("a:b", "c") == Key("a", "b:c")
  {
    assert Key("a:b", "c") == "a:b:c";
    assert Key("a", "b:c") == "a:b:c";
  }

  /** The key is the user id, a ':' at index `|userId|`, then the session id. */
  lemma KeyParts(userId: string, sessionId: string)
    ensures |Key(userId, sessionId)| == |userId| + 1 + |sessionId|
    ensures Key(userId, sessionId)[..|userId|] == userId
    ensures Key(userId, sessionId)[|userId|] == ':'
    ensures Key(userId, sessionId)[|userId| + 1..] == sessionId
  {
    var k := Key(userId, sessionId);
    assert k == userId + ":" + sessionId;
  }

  /** When user ids contain no ':' the key determines the pair. */
  lemma KeyInjectiveWithoutColon(u1: string, s1: string, u2: string, s2: string)
    requires ':' !in u1 && ':' !in u2
    requires Key(u1, s1) == Key(u2, s2)
    ensures u1 == u2 && s1 == s2
  {
    var k := Key(u1, s1);
    KeyParts(u1, s1);
    KeyParts(u2, s2);
    if |u1| < |u2| {
      assert false;
    } else if |u2| < |u1| {
      assert false;
    }
    assert u1 == k[..|u1|] == u2;
    assert s1 == k[|u1| + 1..] == s2;
  }

  /** One turn as prompt text: `f"User: {h['user']}\nAgent: {h['agent']}"`. */
  function RenderTurn(t: Turn): string
  {
    "User: " + t.user + "\nAgent: " + t.agent
  }

  function RenderedTurns(history: seq<Turn>): (r: seq<string>)
    ensures |r| == |history| && forall i :: 0 <= i < |history| ==> r[i] == RenderTurn(history[i])
  {
    seq(|history|, i requires 0 <= i < |history| => RenderTurn(history[i]))
  }

  /** `render_history_for_prompt`: the rendered turns joined by newlines, in list order. */
  function RenderHistory(history: seq<Turn>): string
  {
    Join("\n", RenderedTurns(history))
  }

  /** The rendering is empty exactly when the history is; otherwise it starts with "User: ". */
  lemma RenderEmptyIff(history: seq<Turn>)
    ensures RenderHistory(history) == "" <==> history == []
    ensures history != [] ==> RenderHistory(history)[..6] == "User: "
  {
    var parts := RenderedTurns(history);
    if |parts| >= 2 {
      assert RenderHistory(history) == parts[0] + "\n" + Join("\n", parts[1..]);
    }
  }

  /** Rendering a history extended by one turn appends a newline and that turn. */
  lemma RenderSnoc(history: seq<Turn>, t: Turn)
    ensures RenderHistory(history + [t])
         == if history == [] then RenderTurn(t) else RenderHistory(history) + "\n" + RenderTurn(t)
  {
    assert RenderedTurns(history + [t]) == RenderedTurns(history) + [RenderTurn(t)];
    JoinSnoc("\n", RenderedTurns(history), RenderTurn(t));
  }

  /** The rendering of a history is a prefix of the rendering of any extension of it. */
  lemma RenderExtends(older: seq<Turn>, newer: seq<Turn>)
    requires older != [] && newer != []
    ensures RenderHistory(older + newer) == RenderHistory(older) + "\n" + RenderHistory(newer)
  {
    assert RenderedTurns(older + newer) == RenderedTurns(older) + RenderedTurns(newer);
    JoinAppend("\n", RenderedTurns(older), RenderedTurns(newer));
  }

  /** The rendering cannot be parsed back: a message containing "\nAgent: " is ambiguous. */
  lemma RenderNotInjective()
    ensures [Turn("x\nAgent: y", "z")] != [Turn("x", "y\nAgent: z")]
    ensures RenderHistory([Turn("x\nAgent: y", "z")]) == RenderHistory([Turn("x", "y\nAgent: z")])
  {
    assert RenderedTurns([Turn("x\nAgent: y", "z")]) == [RenderTurn(Turn("x\nAgent: y", "z"))];
    assert RenderedTurns([Turn("x", "y\nAgent: z")]) == [RenderTurn(Turn("x", "y\nAgent: z"))];
    assert RenderTurn(Turn("x\nAgent: y", "z")) == "User: x\nAgent: y\nAgent: z";
    assert RenderTurn(Turn("x", "y\nAgent: z")) == "User: x\nAgent: y\nAgent: z";
  }
}
