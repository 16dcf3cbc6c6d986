/**
 * The list operations the store's mutators perform on the two bounded histories
 * (src/utils/storage.ts:150-206): `findIndex`, `unshift` then `slice(0, cap)`, index
 * assignment, `filter`, and the message count of a conversation.
 */
module History {
  import opened AppStateModel

  const MaxConversations: nat := 50
  const MaxMessages: nat := 200

  function Min(a: nat, b: nat): nat {
    if a <= b then a else b
  }

  /** `if (s.length > n) s = s.slice(0, n)`: the first `n` entries, or all of them. */
  function Take<T>(s: seq<T>, n: nat): (r: seq<T>)
    ensures |r| == Min(|s|, n)
    ensures r == s[..|r|]
  {
    if |s| > n then s[..n] else s
  }

  /** Array `filter`: the entries satisfying `keep`, in their original order. */
  function Filter<T>(s: seq<T>, keep: T -> bool): (r: seq<T>)
    ensures |r| <= |s|
    ensures forall i :: 0 <= i < |r| ==> r[i] in s && keep(r[i])
    ensures forall i :: 0 <= i < |s| && keep(s[i]) ==> s[i] in r
  {
    if s == [] then []
    else (if keep(s[0]) then [s[0]] else []) + Filter(s[1..], keep)
  }

  /** Filtering distributes over concatenation, so the kept entries keep their relative order. */
  lemma {:induction false} FilterConcat<T>(a: seq<T>, b: seq<T>, keep: T -> bool)
    ensures Filter(a + b, keep) == Filter(a, keep) + Filter(b, keep)
  {
    if a == [] {
      assert a + b == b;
    } else {
      assert (a + b)[1..] == a[1..] + b;
      FilterConcat(a[1..], b, keep);
    }
  }

  /** A filter that every entry passes returns the list unchanged. */
  lemma {:induction false} FilterKeepsAll<T>(s: seq<T>, keep: T -> bool)
    requires forall i :: 0 <= i < |s| ==> keep(s[i])
    ensures Filter(s, keep) == s
  {
    if s != [] {
      FilterKeepsAll(s[1..], keep);
    }
  }

  /** `conversations.findIndex(c => c.id === id)`: the first index with that id, or -1. */
  function IndexOf(cs: seq<Conversation>, id: string): (i: int)
    ensures -1 <= i < |cs|
    ensures 0 <= i ==> cs[i].id == id && forall j :: 0 <= j < i ==> cs[j].id != id
    ensures i == -1 <==> forall j :: 0 <= j < |cs| ==> cs[j].id != id
  {
    if cs == [] then -1
    else if cs[0].id == id then 0
    else
      var k := IndexOf(cs[1..], id);
      if k < 0 then -1 else k + 1
  }

  /**
   * The change `addConversation` makes to the list: a record whose id is already listed
   * replaces the first such entry in place; a new one is put in front and the list is cut
   * to the cap from the tail.
   */
  function WithConversation(cs: seq<Conversation>, c: Conversation): (r: seq<Conversation>)
    ensures c in r
    ensures IndexOf(cs, c.id) >= 0 ==>
      |r| == |cs| && r[IndexOf(cs, c.id)] == c &&
      forall j :: 0 <= j < |cs| && j != IndexOf(cs, c.id) ==> r[j] == cs[j]
    ensures IndexOf(cs, c.id) < 0 ==>
      |r| == Min(|cs| + 1, MaxConversations) && r[0] == c && r[1..] == cs[..|r| - 1]
    ensures |cs| <= MaxConversations ==> |r| <= MaxConversations
  {
    var i := IndexOf(cs, c.id);
    if i >= 0 then (var r := cs[i := c]; assert r[i] == c; r)
    else (var r := Take([c] + cs, MaxConversations); assert r[0] == c; r)
  }

  /**
   * The change `updateConversation` makes to the list: the first record with that id is
   * spread-merged with the update; every other record, and an unknown id's list, stay as they are.
   */
  function WithConversationUpdated(cs: seq<Conversation>, id: string, u: PartialConversation): (r: seq<Conversation>)
    ensures |r| == |cs|
    ensures IndexOf(cs, id) < 0 ==> r == cs
    ensures IndexOf(cs, id) >= 0 ==>
      r[IndexOf(cs, id)] == OverrideConversation(cs[IndexOf(cs, id)], u) &&
      forall j :: 0 <= j < |cs| && j != IndexOf(cs, id) ==> r[j] == cs[j]
  {
    var i := IndexOf(cs, id);
    if i >= 0 then cs[i := OverrideConversation(cs[i], u)] else cs
  }

  /** `conversations.filter(c => c.id !== id)`. */
  function WithoutConversation(cs: seq<Conversation>, id: string): (r: seq<Conversation>)
    ensures forall c :: c in r <==> c in cs && c.id != id
  {
    Filter(cs, (c: Conversation) => c.id != id)
  }

  /** `recentMessages.filter(m => m.conversationId !== id)`. */
  function WithoutMessagesOf(ms: seq<Message>, id: string): (r: seq<Message>)
    ensures forall m :: m in r <==> m in ms && m.conversationId != id
  {
    Filter(ms, (m: Message) => m.conversationId != id)
  }

  /** `recentMessages.filter(m => m.conversationId === id)`. */
  function MessagesOf(ms: seq<Message>, id: string): (r: seq<Message>)
    ensures forall m :: m in r <==> m in ms && m.conversationId == id
  {
    Filter(ms, (m: Message) => m.conversationId == id)
  }

  /** `recentMessages.unshift(message)` followed by the cut to the message cap. */
  function PushMessage(ms: seq<Message>, m: Message): (r: seq<Message>)
    ensures |r| == Min(|ms| + 1, MaxMessages) && r[0] == m && r[1..] == ms[..|r| - 1]
  {
    Take([m] + ms, MaxMessages)
  }

  // ---------------------------------------------------------------------------
  // Deleting a conversation keeps the order of what is left.

  lemma DeleteKeepsOrder(a: seq<Conversation>, b: seq<Conversation>, x: seq<Message>, y: seq<Message>, id: string)
    ensures WithoutConversation(a + b, id) == WithoutConversation(a, id) + WithoutConversation(b, id)
    ensures WithoutMessagesOf(x + y, id) == WithoutMessagesOf(x, id) + WithoutMessagesOf(y, id)
  {
    FilterConcat(a, b, (c: Conversation) => c.id != id);
    FilterConcat(x, y, (m: Message) => m.conversationId != id);
  }

  /** Deleting an id that nothing carries leaves both lists as they were. */
  lemma DeleteUnknownChangesNothing(cs: seq<Conversation>, ms: seq<Message>, id: string)
    requires forall i :: 0 <= i < |cs| ==> cs[i].id != id
    requires forall i :: 0 <= i < |ms| ==> ms[i].conversationId != id
    ensures WithoutConversation(cs, id) == cs
    ensures WithoutMessagesOf(ms, id) == ms
  {
    FilterKeepsAll(cs, (c: Conversation) => c.id != id);
    FilterKeepsAll(ms, (m: Message) => m.conversationId != id);
  }

  // ---------------------------------------------------------------------------
  // Sequences of insertions.

  function Reversed<T>(s: seq<T>): (r: seq<T>)
    ensures |r| == |s|
    ensures forall i :: 0 <= i < |s| ==> r[i] == s[|s| - 1 - i]
  {
    if s == [] then [] else [s[|s| - 1]] + Reversed(s[..|s| - 1])
  }

  /** Cutting before putting one more entry in front and cutting again is one cut. */
  lemma TakeConsTake<T>(x: T, s: seq<T>, n: nat)
    ensures Take([x] + Take(s, n), n) == Take([x] + s, n)
  {
    if n > 0 && |s| > n {
      assert ([x] + s[..n])[..n] == ([x] + s)[..n];
    }
  }

  /** `addConversation` applied to each record of `adds` in turn, starting from `cs`. */
  function AddAll(cs: seq<Conversation>, adds: seq<Conversation>): seq<Conversation>
    decreases |adds|
  {
    if adds == [] then cs
    else WithConversation(AddAll(cs, adds[..|adds| - 1]), adds[|adds| - 1])
  }

  /**
   * Adding records with distinct ids to an empty list leaves the newest first and keeps only
   * the most recent fifty: after N insertions the list is `min(N, 50)` long.
   */
  lemma {:induction false} AddDistinctKeepsNewest(adds: seq<Conversation>)
    requires forall i, j :: 0 <= i < j < |adds| ==> adds[i].id != adds[j].id
    ensures AddAll([], adds) == Take(Reversed(adds), MaxConversations)
    ensures |AddAll([], adds)| == Min(|adds|, MaxConversations)
  {
    if adds != [] {
      var n := |adds|;
      var init, last := adds[..n - 1], adds[n - 1];
      AddDistinctKeepsNewest(init);
      var before := Take(Reversed(init), MaxConversations);
      assert AddAll([], adds) == WithConversation(before, last);
      forall j | 0 <= j < |before| ensures before[j].id != last.id {
        assert before[j] == init[|init| - 1 - j];
      }
      assert IndexOf(before, last.id) == -1;
      TakeConsTake(last, Reversed(init), MaxConversations);
      assert Reversed(adds) == [last] + Reversed(init);
    }
  }

  /** `PushMessage` applied to each message of `adds` in turn, starting from `ms`. */
  function PushAll(ms: seq<Message>, adds: seq<Message>): seq<Message>
    decreases |adds|
  {
    if adds == [] then ms
    else PushMessage(PushAll(ms, adds[..|adds| - 1]), adds[|adds| - 1])
  }

  /**
   * Pushing N messages onto a history within the cap keeps the newest first and at most the
   * two hundred most recent.
   */
  lemma {:induction false} PushAllKeepsNewest(ms: seq<Message>, adds: seq<Message>)
    requires |ms| <= MaxMessages
    ensures PushAll(ms, adds) == Take(Reversed(adds) + ms, MaxMessages)
    ensures |PushAll(ms, adds)| == Min(|adds| + |ms|, MaxMessages)
  {
    if adds != [] {
      var n := |adds|;
      var init, last := adds[..n - 1], adds[n - 1];
      PushAllKeepsNewest(ms, init);
      assert Reversed(adds) == [last] + Reversed(init);
      calc {
        PushAll(ms, adds);
        PushMessage(PushAll(ms, init), last);
        Take([last] + Take(Reversed(init) + ms, MaxMessages), MaxMessages);
        { TakeConsTake(last, Reversed(init) + ms, MaxMessages); }
        Take([last] + (Reversed(init) + ms), MaxMessages);
        { assert [last] + (Reversed(init) + ms) == Reversed(adds) + ms; }
        Take(Reversed(adds) + ms, MaxMessages);
      }
    }
  }
}
