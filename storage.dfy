/**
 * The in-memory store behind the API: three insertion-ordered maps from id to
 * record, seeded with two customers and two conversations. Identifiers come from
 * `randomUUID()` and times from the clock; both are parameters here.
 */
module Storage {
  import opened Common
  import opened Js
  import opened JsMap

  const CustomerOne := "customer-1"
  const CustomerTwo := "customer-2"
  const ConversationOne := "conv-1"
  const ConversationTwo := "conv-2"

  /** The texts of the seeded messages. */
  const Greeting := "Hello! I'm AudiaGenix, your intelligent voice assistant. How can I assist you today?"
  const ConnectionComplaint := "Hi, I'm having trouble with my internet connection. It keeps dropping out every few minutes."
  const BillingOffer := "I understand you have a billing inquiry. Let me help you with that."
  const DoubleCharge := "I've been charged twice for the same service."

  /** Three weeks and two days, in milliseconds. */
  const ThreeWeeksMs := 3 * 7 * 24 * 60 * 60 * 1000
  const TwoDaysMs := 2 * 24 * 60 * 60 * 1000

  /** `{ ...insert, id, createdAt: new Date() }` for conversations and sessions. */
  function Stamped(insert: Record, id: string, now: int): (r: Record)
    ensures r.Keys == insert.Keys + {"id", "createdAt"}
    ensures r["id"] == VStr(id) && r["createdAt"] == VDate(now)
    ensures forall k :: k in insert && k != "id" && k != "createdAt" ==> r[k] == insert[k]
  {
    Spread(insert, map["id" := VStr(id), "createdAt" := VDate(now)])
  }

  /** `{ ...insert, id }` for customers: an id and no creation time. */
  function WithId(insert: Record, id: string): (r: Record)
    ensures r.Keys == insert.Keys + {"id"}
    ensures r["id"] == VStr(id)
    ensures forall k :: k in insert && k != "id" ==> r[k] == insert[k]
  {
    Spread(insert, map["id" := VStr(id)])
  }

  /** `session.conversationId === conversationId`: the session names that conversation as a string. */
  predicate BelongsTo(session: Record, conversationId: string)
  {
    "conversationId" in session && session["conversationId"] == VStr(conversationId)
  }

  /** `filter(session => session.conversationId === conversationId)`, keeping the order. */
  function SessionsWith(sessions: seq<Record>, conversationId: string): (r: seq<Record>)
    ensures |r| <= |sessions|
    ensures forall s :: s in r <==> s in sessions && BelongsTo(s, conversationId)
    ensures r == [] <==> forall s :: s in sessions ==> !BelongsTo(s, conversationId)
  {
    if sessions == [] then []
    else
      var rest := SessionsWith(sessions[1..], conversationId);
      assert forall s :: s in sessions <==> s == sessions[0] || s in sessions[1..];
      if BelongsTo(sessions[0], conversationId) then [sessions[0]] + rest else rest
  }

  /** Filtering distributes over concatenation, so it keeps the relative order of the sessions. */
  lemma {:induction false} SessionsWithAppend(a: seq<Record>, b: seq<Record>, conversationId: string)
    ensures SessionsWith(a + b, conversationId) == SessionsWith(a, conversationId) + SessionsWith(b, conversationId)
  {
    if a != [] {
      assert (a + b)[0] == a[0] && (a + b)[1..] == a[1..] + b;
      SessionsWithAppend(a[1..], b, conversationId);
    } else {
      assert a + b == b;
    }
  }

  /** The first seeded customer, last contacted three weeks before `now`. */
  function SarahJohnson(now: int): Record
  {
    map[
      "id" := VStr(CustomerOne),
      "name" := VStr("Sarah Johnson"),
      "tier" := VStr("premium"),
      "accountAge" := VStr("2 years"),
      "lastContact" := VDate(now - ThreeWeeksMs),
      "sentimentHistory" := VStr("positive"),
      "language" := VStr("English"),
      "previousIssues" := VArr([VStr("Wi-Fi setup assistance"), VStr("Billing inquiry (resolved)"), VStr("Service upgrade")])
    ]
  }

  /** The second seeded customer, last contacted two days before `now`. */
  function MikeChen(now: int): Record
  {
    map[
      "id" := VStr(CustomerTwo),
      "name" := VStr("Mike Chen"),
      "tier" := VStr("standard"),
      "accountAge" := VStr("1 year"),
      "lastContact" := VDate(now - TwoDaysMs),
      "sentimentHistory" := VStr("frustrated"),
      "language" := VStr("English"),
      "previousIssues" := VArr([VStr("Account billing inquiry"), VStr("Service downtime")])
    ]
  }

  /** The first seeded conversation; `iso` is the clock as an ISO-8601 string. */
  function SarahConversation(now: int, iso: string): Record
  {
    map[
      "id" := VStr(ConversationOne),
      "customerName" := VStr("Sarah Johnson"),
      "status" := VStr("active"),
      "messages" := VArr([
        VObj(map[
          "type" := VStr("ai"),
          "content" := VStr(Greeting),
          "timestamp" := VStr(iso),
          "confidence" := VNum(98.0),
          "latency" := VNum(200.0)]),
        VObj(map[
          "type" := VStr("user"),
          "content" := VStr(ConnectionComplaint),
          "timestamp" := VStr(iso),
          "sentiment" := VStr("frustrated")])]),
      "sentiment" := VStr("frustrated"),
      "duration" := VNum(204.0),
      "createdAt" := VDate(now)
    ]
  }

  /** The second seeded conversation, already escalated. */
  function MikeConversation(now: int, iso: string): Record
  {
    map[
      "id" := VStr(ConversationTwo),
      "customerName" := VStr("Mike Chen"),
      "status" := VStr("escalated"),
      "messages" := VArr([
        VObj(map[
          "type" := VStr("ai"),
          "content" := VStr(BillingOffer),
          "timestamp" := VStr(iso),
          "confidence" := VNum(95.0)]),
        VObj(map[
          "type" := VStr("user"),
          "content" := VStr(DoubleCharge),
          "timestamp" := VStr(iso),
          "sentiment" := VStr("frustrated")])]),
      "sentiment" := VStr("frustrated"),
      "duration" := VNum(495.0),
      "createdAt" := VDate(now)
    ]
  }

  /** Two inserts under distinct keys into an empty map iterate in insertion order. */
  lemma TwoInserts(t: Table<Record>, k1: string, v1: Record, k2: string, v2: Record)
    requires t.Valid() && t.entries == map[] && k1 != k2
    ensures t.Set(k1, v1).Valid()
    ensures t.Set(k1, v1).Set(k2, v2).order == t.order + [k1, k2]
    ensures t.Set(k1, v1).Set(k2, v2).Values() == t.Values() + [v1, v2]
  {
    ValuesAfterInsert(t, k1, v1);
    ValuesAfterInsert(t.Set(k1, v1), k2, v2);
  }

  /** The two seeded customers, set in this order into a new map. */
  function SeedCustomers(now: int): (t: Table<Record>)
    ensures t.Valid()
    ensures t.order == [CustomerOne, CustomerTwo]
    ensures t.Values() == [SarahJohnson(now), MikeChen(now)]
  {
    var empty := Empty();
    TwoInserts(empty, CustomerOne, SarahJohnson(now), CustomerTwo, MikeChen(now));
    empty.Set(CustomerOne, SarahJohnson(now)).Set(CustomerTwo, MikeChen(now))
  }

  /** The two seeded conversations, set in this order into a new map. */
  function SeedConversations(now: int, iso: string): (t: Table<Record>)
    ensures t.Valid()
    ensures t.order == [ConversationOne, ConversationTwo]
    ensures t.Values() == [SarahConversation(now, iso), MikeConversation(now, iso)]
  {
    var empty := Empty();
    TwoInserts(empty, ConversationOne, SarahConversation(now, iso), ConversationTwo, MikeConversation(now, iso));
    empty.Set(ConversationOne, SarahConversation(now, iso)).Set(ConversationTwo, MikeConversation(now, iso))
  }

  class MemStorage {
    var conversations: Table<Record>
    var sessions: Table<Record>
    var customers: Table<Record>

    ghost predicate Valid()
      reads this
    {
      conversations.Valid() && sessions.Valid() && customers.Valid()
    }

    /** A new store holding the seed data; `now` and `iso` are the clock at construction. */
    constructor (now: int, iso: string)
      ensures Valid()
      ensures customers == SeedCustomers(now)
      ensures conversations == SeedConversations(now, iso)
      ensures sessions == Empty()
    {
      customers := SeedCustomers(now);
      conversations := SeedConversations(now, iso);
      sessions := Empty();
    }

    /** `getConversations()`: every stored conversation, in insertion order. */
    method GetConversations() returns (r: seq<Record>)
      requires Valid()
      ensures r == conversations.Values()
      ensures forall id :: id in conversations.entries ==> conversations.entries[id] in r
      ensures |r| == |conversations.entries|
    {
      r := conversations.Values();
      ValuesAreEntries(conversations);
      SizeIsLength(conversations);
    }

    /** `getConversation(id)`: the record stored under `id`, if any. */
    method GetConversation(id: string) returns (r: Option<Record>)
      requires Valid()
      ensures r.Some? <==> id in conversations.entries
      ensures r.Some? ==> r.value == conversations.entries[id]
    {
      r := conversations.Get(id);
    }

    /**
     * `createConversation(insert)` with `id` the generated UUID and `now` the clock:
     * the insert fields, then `id` and `createdAt`, which win over same-named input
     * keys; stored under `id`, nothing else touched.
     */
    method CreateConversation(insert: Record, id: string, now: int) returns (r: Record)
      requires Valid()
      modifies this
      ensures Valid()
      ensures r == Stamped(insert, id, now)
      ensures conversations == old(conversations).Set(id, r)
      ensures conversations.Get(id) == Some(r)
      ensures forall k :: k != id ==> conversations.Get(k) == old(conversations).Get(k)
      ensures id !in old(conversations).entries ==> conversations.Values() == old(conversations.Values()) + [r]
      ensures sessions == old(sessions) && customers == old(customers)
    {
      r := Stamped(insert, id, now);
      if id !in conversations.entries {
        ValuesAfterInsert(conversations, id, r);
      }
      conversations := conversations.Set(id, r);
    }

    /**
     * `updateConversation(id, updates)`: an unknown id changes nothing; a known one
     * gets `{ ...old, ...updates }` stored back under the same id, whatever `id`
     * the updates carry.
     */
    method UpdateConversation(id: string, updates: Record) returns (r: Option<Record>)
      requires Valid()
      modifies this
      ensures Valid()
      ensures id !in old(conversations).entries ==> r == None && conversations == old(conversations)
      ensures id in old(conversations).entries ==>
        r == Some(Spread(old(conversations).entries[id], updates)) &&
        conversations == old(conversations).Set(id, r.value) &&
        conversations.order == old(conversations).order
      ensures forall k :: k != id ==> conversations.Get(k) == old(conversations).Get(k)
      ensures sessions == old(sessions) && customers == old(customers)
    {
      var current := conversations.Get(id);
      if current.None? {
        return None;
      }
      var updated := Spread(current.value, updates);
      conversations := conversations.Set(id, updated);
      r := Some(updated);
    }

    /** `getSessions(conversationId)`: the sessions naming that conversation, in insertion order. */
    method GetSessions(conversationId: string) returns (r: seq<Record>)
      requires Valid()
      ensures r == SessionsWith(sessions.Values(), conversationId)
    {
      r := SessionsWith(sessions.Values(), conversationId);
    }

    /** `createSession(insert)`: like conversations, with no check that the conversation exists. */
    method CreateSession(insert: Record, id: string, now: int) returns (r: Record)
      requires Valid()
      modifies this
      ensures Valid()
      ensures r == Stamped(insert, id, now)
      ensures sessions == old(sessions).Set(id, r)
      ensures sessions.Get(id) == Some(r)
      ensures forall k :: k != id ==> sessions.Get(k) == old(sessions).Get(k)
      ensures id !in old(sessions).entries ==> sessions.Values() == old(sessions.Values()) + [r]
      ensures conversations == old(conversations) && customers == old(customers)
    {
      r := Stamped(insert, id, now);
      if id !in sessions.entries {
        ValuesAfterInsert(sessions, id, r);
      }
      sessions := sessions.Set(id, r);
    }

    /** `getCustomers()`: every stored customer, in insertion order. */
    method GetCustomers() returns (r: seq<Record>)
      requires Valid()
      ensures r == customers.Values()
      ensures forall id :: id in customers.entries ==> customers.entries[id] in r
      ensures |r| == |customers.entries|
    {
      r := customers.Values();
      ValuesAreEntries(customers);
      SizeIsLength(customers);
    }

    /** `getCustomer(id)`: the customer stored under `id`, if any. */
    method GetCustomer(id: string) returns (r: Option<Record>)
      requires Valid()
      ensures r.Some? <==> id in customers.entries
      ensures r.Some? ==> r.value == customers.entries[id]
    {
      r := customers.Get(id);
    }

    /** `createCustomer(insert)`: the insert fields and the generated id, with no creation time. */
    method CreateCustomer(insert: Record, id: string) returns (r: Record)
      requires Valid()
      modifies this
      ensures Valid()
      ensures r == WithId(insert, id)
      ensures customers == old(customers).Set(id, r)
      ensures customers.Get(id) == Some(r)
      ensures forall k :: k != id ==> customers.Get(k) == old(customers).Get(k)
      ensures id !in old(customers).entries ==> customers.Values() == old(customers.Values()) + [r]
      ensures conversations == old(conversations) && sessions == old(sessions)
    {
      r := WithId(insert, id);
      if id !in customers.entries {
        ValuesAfterInsert(customers, id, r);
      }
      customers := customers.Set(id, r);
    }
  }

  /**
   * A new session under a fresh id shows up at the end of its conversation's
   * session list, and leaves every other conversation's list as it was.
   */
  lemma SessionsAfterCreate(t: Table<Record>, id: string, session: Record, conversationId: string)
    requires t.Valid() && id !in t.entries
    ensures SessionsWith(t.Set(id, session).Values(), conversationId) ==
      SessionsWith(t.Values(), conversationId) + (if BelongsTo(session, conversationId) then [session] else [])
  {
    var before := t.Values();
    ValuesAfterInsert(t, id, session);
    assert t.Set(id, session).Values() == before + [session];
    SessionsWithAppend(before, [session], conversationId);
    SessionsWithOne(session, conversationId);
  }

  lemma SessionsWithOne(session: Record, conversationId: string)
    ensures SessionsWith([session], conversationId) == if BelongsTo(session, conversationId) then [session] else []
  {
    assert [session][1..] == [];
  }

  /** Stamping a session keeps the conversation it belongs to. */
  lemma StampedKeepsOwner(insert: Record, id: string, now: int, conversationId: string)
    requires "conversationId" in insert && insert["conversationId"] == VStr(conversationId)
    ensures BelongsTo(Stamped(insert, id, now), conversationId)
  {
    assert "conversationId" != "id" && "conversationId" != "createdAt";
  }

  /** The store keeps the original key even when the updates carry another `id`. */
  lemma UpdateMayRenameRecord(t: Table<Record>, key: string, other: string, updates: Record)
    requires t.Valid() && key in t.entries && other != key
    requires "id" in updates && updates["id"] == VStr(other)
    ensures t.Set(key, Spread(t.entries[key], updates)).Get(key).value["id"] == VStr(other)
    ensures t.Set(key, Spread(t.entries[key], updates)).Get(other) == t.Get(other)
  {
  }
}
