/** Conversation keys of the agent door: which strings they are, and that they tell
    callers, targets and correlations apart. */
module AgentKeys {

  const PREFIX: string := "a2a:"

  function AgentConversationKey(caller: string, target: string, correlation: string): string {
    PREFIX + caller + ":" + target + ":" + correlation
  }

  predicate IsAgentConversationKey(key: string) {
    |key| >= 4 && key[..4] == PREFIX
  }

  /** An agent id never contains the separator. */
  predicate NoSeparator(s: string) {
    ':' !in s
  }

  predicate Digits(s: string) {
    forall c :: c in s ==> '0' <= c <= '9'
  }

  /** The first separator of a text stands no earlier than what has none ends. */
  lemma SeparatorAfter(a: string, r: string, b: string, q: string)
    requires NoSeparator(b) && a + ":" + r == b + ":" + q
    ensures |b| <= |a|
  {
    var s := b + ":" + q;
    assert forall i :: 0 <= i < |b| ==> s[i] == b[i] && s[i] in b;
    assert (a + ":" + r)[|a|] == ':';
  }

  /** The part before the first separator is determined. */
  lemma FirstPart(a: string, r: string, b: string, q: string)
    requires NoSeparator(a) && NoSeparator(b) && a + ":" + r == b + ":" + q
    ensures a == b && r == q
  {
    SeparatorAfter(a, r, b, q);
    SeparatorAfter(b, q, a, r);
    var s := a + ":" + r;
    assert a == s[..|a|] && b == s[..|a|];
    assert r == s[|a| + 1..] && q == s[|a| + 1..];
  }

  /** Two exchanges share a key only if they share both ends and the correlation. */
  lemma KeysTellApart(caller: string, target: string, correlation: string, caller': string, target': string, correlation': string)
    requires NoSeparator(caller) && NoSeparator(target) && NoSeparator(caller') && NoSeparator(target')
    ensures AgentConversationKey(caller, target, correlation) == AgentConversationKey(caller', target', correlation') <==>
      caller == caller' && target == target' && correlation == correlation'
  {
    var key, key' := AgentConversationKey(caller, target, correlation), AgentConversationKey(caller', target', correlation');
    if key == key' {
      var r, r' := target + ":" + correlation, target' + ":" + correlation';
      assert key == PREFIX + (caller + ":" + r) && key' == PREFIX + (caller' + ":" + r');
      assert caller + ":" + r == key[4..] && caller' + ":" + r' == key'[4..];
      FirstPart(caller, r, caller', r');
      FirstPart(target, correlation, target', correlation');
    }
  }

  /** Were the separator allowed inside an id, two exchanges would share one key. */
  lemma SeparatorMatters()
    ensures AgentConversationKey("a:b", "c", "d") == AgentConversationKey("a", "b:c", "d")
  {
    assert AgentConversationKey("a:b", "c", "d") == "a2a:a:b:c:d";
    assert AgentConversationKey("a", "b:c", "d") == "a2a:a:b:c:d";
  }

  /** Every key of the door reads as one, and no phone does. */
  lemma KeysAndPhonesApart(caller: string, target: string, correlation: string, phone: string)
    requires Digits(phone)
    ensures IsAgentConversationKey(AgentConversationKey(caller, target, correlation))
    ensures !IsAgentConversationKey(phone) && phone != AgentConversationKey(caller, target, correlation)
  {
    assert AgentConversationKey(caller, target, correlation)[..4] == PREFIX;
    if |phone| >= 4 {
      assert phone[0] in phone;
      assert phone[..4][0] == phone[0];
    }
  }
}
