/** The chat message record shared by every component (`Message`, `MessageRole`). */
module Messages {

  datatype Role = System | User | Assistant

  datatype Message = Message(role: Role, content: string)

  /** Number of messages with role `system` in a conversation. */
  function SystemCount(s: seq<Message>): nat {
    if s == [] then 0 else SystemCount(s[..|s| - 1]) + (if s[|s| - 1].role == System then 1 else 0)
  }

  /** `messages.some(msg => msg.role === "system")`. */
  predicate HasSystemMessage(s: seq<Message>) {
    exists i | 0 <= i < |s| :: s[i].role == System
  }

  lemma {:induction false} SystemCountPositiveIff(s: seq<Message>)
    ensures SystemCount(s) > 0 <==> HasSystemMessage(s)
  {
    if s != [] {
      var init := s[..|s| - 1];
      SystemCountPositiveIff(init);
      assert forall i | 0 <= i < |init| :: init[i] == s[i];
      if HasSystemMessage(s) && s[|s| - 1].role != System {
        var i :| 0 <= i < |s| && s[i].role == System;
        assert init[i].role == System;
      }
    }
  }

  lemma {:induction false} SystemCountAppend(a: seq<Message>, b: seq<Message>)
    ensures SystemCount(a + b) == SystemCount(a) + SystemCount(b)
  {
    if b != [] {
      assert (a + b)[..|a + b| - 1] == a + b[..|b| - 1];
      SystemCountAppend(a, b[..|b| - 1]);
    } else {
      assert a + b == a;
    }
  }
}
