/** What one merge conserves: messages, channel identities, tags and history, and the schema's own rules. */
module ContactConservation {
  import opened Common
  import opened ContactModel

  /** An accepted merge with truthful answers. */
  ghost predicate Accepted(db: Db, ws: Id, p: Id, s: Id, a: Answers) {
    Valid(db) && MergeRefused(db, ws, p, s).None? && Truthful(db, ws, p, s, a)
  }

  /** The database after an accepted merge. */
  function After(db: Db, ws: Id, p: Id, s: Id, selected: set<string>, a: Answers): Db
    requires MergeRefused(db, ws, p, s).None? && AllIn(a.order, db.conversations.Keys)
  {
    Merge(db, ws, p, s, selected, a).value
  }

  /** The parts of a merge touch different tables. */
  lemma MergeParts(db: Db, ws: Id, p: Id, s: Id, selected: set<string>, a: Answers)
    requires MergeRefused(db, ws, p, s).None? && AllIn(a.order, db.conversations.Keys)
    ensures var d := After(db, ws, p, s, selected, a);
            var folded := MergeConversations(db, p, a);
            && d.conversations == folded.conversations && d.messages == folded.messages
            && d.activities == folded.activities
            && d.tags == MergeTags(db, p, s, selected).tags && d.tagNames == db.tagNames
            && d.channels == MergeChannels(db, ws, p, s).channels
            && d.workflowRuns == MergeWorkflowRuns(db, ws, p, s).workflowRuns
            && d.history == MergeHistory(db, ws, p, s).history
            && d.contacts == LinkSecondary(db, p, s).contacts && d.mergeRuns == db.mergeRuns + [MergeRun(p, s)]
  {
  }

  /** All conversations of a contact. */
  function ConversationsOf(db: Db, contact: Id): set<Id> {
    set c | c in db.conversations && db.conversations[c].contact == contact
  }

  /** In a valid database the pool is exactly the conversations of the two contacts. */
  lemma PoolIsBoth(db: Db, ws: Id, p: Id, s: Id)
    requires Valid(db) && MergeRefused(db, ws, p, s).None?
    ensures Pool(db, ws, p, s) == ConversationsOf(db, p) + ConversationsOf(db, s)
  {
  }

  /** The messages of the pool are all in the one conversation that the primary is left with. */
  ghost predicate Gathered(db: Db, d: Db, p: Id, pool: set<Id>, survivor: Id) {
    && survivor in pool && ConversationsOf(d, p) == {survivor}
    && forall m | m in db.messages && db.messages[m].conversation in pool ::
         m in d.messages && d.messages[m] == db.messages[m].(conversation := survivor)
  }

  /** Rows outside the pool are as they were. */
  ghost predicate Elsewhere(db: Db, d: Db, pool: set<Id>) {
    && d.messages.Keys == db.messages.Keys
    && (forall m | m in db.messages && db.messages[m].conversation !in pool :: d.messages[m] == db.messages[m])
    && (forall c | c in db.conversations && c !in pool ::
          c in d.conversations && d.conversations[c] == db.conversations[c])
    && (forall c | c in d.conversations :: c in db.conversations)
  }

  lemma AbsorbGathers(db: Db, ws: Id, p: Id, s: Id, survivor: Id, a: Answers)
    requires Valid(db) && MergeRefused(db, ws, p, s).None?
    requires Lists(a.order, Pool(db, ws, p, s)) && survivor in Pool(db, ws, p, s)
    ensures var d, pool := Absorb(db, p, survivor, a), Pool(db, ws, p, s);
            && Gathered(db, d, p, pool, survivor) && Elsewhere(db, d, pool)
            && ConversationsOf(d, s) == {}
            && d.conversations.Keys == db.conversations.Keys - pool + {survivor}
  {
    var pool := Pool(db, ws, p, s);
    PoolIsBoth(db, ws, p, s);
    assert Others(a.order, survivor) == pool - {survivor};
    var d := Absorb(db, p, survivor, a);
    assert d.conversations.Keys == db.conversations.Keys - pool + {survivor};
    forall m | m in db.messages && db.messages[m].conversation in pool
      ensures d.messages[m] == db.messages[m].(conversation := survivor)
    {
      if db.messages[m].conversation == survivor {
        assert db.messages[m].(conversation := survivor) == db.messages[m];
      }
    }
  }

  /**
   * No message is lost: the messages of both contacts are in the one conversation that the primary is
   * left with, and no other conversation or message changes.
   */
  lemma NoMessageIsLost(db: Db, ws: Id, p: Id, s: Id, selected: set<string>, a: Answers)
    requires Accepted(db, ws, p, s, a)
    ensures var d, pool := After(db, ws, p, s, selected, a), ConversationsOf(db, p) + ConversationsOf(db, s);
            && Elsewhere(db, d, pool)
            && ConversationsOf(d, s) == {}
            && (if pool == {} then ConversationsOf(d, p) == {}
                else exists survivor :: Gathered(db, d, p, pool, survivor))
  {
    var d, pool := After(db, ws, p, s, selected, a), Pool(db, ws, p, s);
    MergeParts(db, ws, p, s, selected, a);
    PoolIsBoth(db, ws, p, s);
    if a.order == [] {
      assert pool == {};
    } else {
      var survivor := Survivor(db.conversations, p, a.order).value;
      assert survivor in pool;
      AbsorbGathers(db, ws, p, s, survivor, a);
      SameConversations(db, Absorb(db, p, survivor, a), d, p, s, pool, survivor);
    }
  }

  /** The claims above only look at conversations and messages. */
  lemma SameConversations(db: Db, d: Db, e: Db, p: Id, s: Id, pool: set<Id>, survivor: Id)
    requires d.conversations == e.conversations && d.messages == e.messages
    requires Gathered(db, d, p, pool, survivor) && Elsewhere(db, d, pool) && ConversationsOf(d, s) == {}
    ensures Gathered(db, e, p, pool, survivor) && Elsewhere(db, e, pool) && ConversationsOf(e, s) == {}
  {
    assert ConversationsOf(e, p) == ConversationsOf(d, p) && ConversationsOf(e, s) == ConversationsOf(d, s);
  }

  /** Channel identities of a contact. */
  function Identities(db: Db, contact: Id): set<(Id, string)> {
    ChannelKeys(db.channels, contact)
  }

  function TagsOf(db: Db, contact: Id): set<Id> {
    set t | t in db.tags && t.0 == contact :: t.1
  }

  /** The primary ends with the union of the channel identities and the selected union of the tags. */
  lemma UnionOfIdentitiesAndTags(db: Db, ws: Id, p: Id, s: Id, selected: set<string>, a: Answers)
    requires Accepted(db, ws, p, s, a)
    ensures var d := After(db, ws, p, s, selected, a);
            && Identities(d, p) == Identities(db, p) + Identities(db, s)
            && Identities(d, s) == {}
            && (forall t :: t in TagsOf(d, p) <==> t in TagsOf(db, p) + TagsOf(db, s) && TagSelected(db, t, selected))
            && TagsOf(d, s) == {}
            && (forall c | c != p && c != s :: Identities(d, c) == Identities(db, c) && TagsOf(d, c) == TagsOf(db, c))
  {
    MergeParts(db, ws, p, s, selected, a);
    IdentitiesUnion(db, ws, p, s);
    TagsUnion(db, p, s, selected);
  }

  lemma IdentitiesUnion(db: Db, ws: Id, p: Id, s: Id)
    requires Valid(db) && MergeRefused(db, ws, p, s).None?
    ensures var d := MergeChannels(db, ws, p, s);
            && Identities(d, p) == Identities(db, p) + Identities(db, s)
            && Identities(d, s) == {}
            && (forall c | c != p && c != s :: Identities(d, c) == Identities(db, c))
  {
    var d := MergeChannels(db, ws, p, s);
    forall k | k in Identities(db, p) + Identities(db, s)
      ensures k in Identities(d, p)
    {
      if k in Identities(db, p) {
        var c :| c in db.channels && db.channels[c].contact == p && Key(db.channels[c]) == k;
        assert c in d.channels && d.channels[c] == db.channels[c];
        assert Key(d.channels[c]) in Identities(d, p);
      } else {
        var c :| c in db.channels && db.channels[c].contact == s && Key(db.channels[c]) == k;
        assert Linked(db.contacts, s, db.channels[c].ws);
        assert c in d.channels && d.channels[c].contact == p;
        assert Key(d.channels[c]) in Identities(d, p);
      }
    }
    forall k, c | c != p && c != s
      ensures k in Identities(d, c) <==> k in Identities(db, c)
    {
      if k in Identities(db, c) {
        var x :| x in db.channels && db.channels[x].contact == c && Key(db.channels[x]) == k;
        assert x in d.channels && d.channels[x] == db.channels[x];
        assert Key(d.channels[x]) in Identities(d, c);
      }
    }
  }

  lemma TagsUnion(db: Db, p: Id, s: Id, selected: set<string>)
    requires p != s
    ensures var d := MergeTags(db, p, s, selected);
            && (forall t :: t in TagsOf(d, p) <==> t in TagsOf(db, p) + TagsOf(db, s) && TagSelected(db, t, selected))
            && TagsOf(d, s) == {}
            && (forall c | c != p && c != s :: TagsOf(d, c) == TagsOf(db, c))
  {
    var d := MergeTags(db, p, s, selected);
    forall t
      ensures t in TagsOf(d, p) <==> t in TagsOf(db, p) + TagsOf(db, s) && TagSelected(db, t, selected)
    {
      if t in TagsOf(db, p) + TagsOf(db, s) && TagSelected(db, t, selected) {
        assert (p, t) in db.tags || (s, t) in db.tags;
        assert t in KeptTags(db, p, s, selected);
        assert (p, t) in d.tags;
      }
      if t in TagsOf(d, p) {
        assert (p, t) in d.tags;
        assert t in KeptTags(db, p, s, selected);
      }
    }
    forall c | c != p && c != s
      ensures TagsOf(d, c) == TagsOf(db, c)
    {
      forall t ensures t in TagsOf(d, c) <==> t in TagsOf(db, c) {
        assert (c, t) in d.tags <==> (c, t) in db.tags;
      }
    }
  }

  /** Nothing that the merge moves still points at the secondary, and no history key is lost. */
  lemma NothingPointsAtTheSecondary(db: Db, ws: Id, p: Id, s: Id, selected: set<string>, a: Answers)
    requires Accepted(db, ws, p, s, a)
    ensures var d := After(db, ws, p, s, selected, a);
            && (forall c | c in d.conversations :: d.conversations[c].contact != s)
            && (forall c | c in d.channels :: d.channels[c].contact != s)
            && (forall t | t in d.tags :: t.0 != s)
            && d.workflowRuns.Keys == db.workflowRuns.Keys
            && (forall r | r in d.workflowRuns :: d.workflowRuns[r].contact != s)
            && (forall h | h in d.history :: d.history[h].contact != s)
            && (forall h | h in db.history && (db.history[h].contact == p || db.history[h].contact == s) ::
                  HistoryKnown(d.history, ws, p, db.history[h]))
  {
    var d := After(db, ws, p, s, selected, a);
    MergeParts(db, ws, p, s, selected, a);
    NoMessageIsLost(db, ws, p, s, selected, a);
    forall c | c in d.conversations
      ensures d.conversations[c].contact != s
    {
      assert c !in ConversationsOf(d, s);
    }
    HistoryKept(db, ws, p, s);
  }

  lemma HistoryKept(db: Db, ws: Id, p: Id, s: Id)
    requires Valid(db) && MergeRefused(db, ws, p, s).None?
    ensures var d := MergeHistory(db, ws, p, s);
            && (forall h | h in d.history :: d.history[h].contact != s)
            && (forall h | h in db.history && (db.history[h].contact == p || db.history[h].contact == s) ::
                  HistoryKnown(d.history, ws, p, db.history[h]))
  {
    var d := MergeHistory(db, ws, p, s);
    forall h | h in db.history && (db.history[h].contact == p || db.history[h].contact == s)
      ensures HistoryKnown(d.history, ws, p, db.history[h])
    {
      assert Linked(db.contacts, db.history[h].contact, db.history[h].ws);
      if HistoryKnown(db.history, ws, p, db.history[h]) {
        var o :| o in db.history && db.history[o].ws == ws && db.history[o].contact == p
            && SameHistory(db.history[o], db.history[h]);
        assert o in d.history && d.history[o] == db.history[o];
      } else {
        assert h in d.history;
      }
    }
  }

  // ---------------------------------------------------------------- the schema's rules

  lemma AbsorbLinked(db: Db, ws: Id, p: Id, s: Id, survivor: Id, a: Answers)
    requires Valid(db) && MergeRefused(db, ws, p, s).None?
    requires Lists(a.order, Pool(db, ws, p, s)) && survivor in Pool(db, ws, p, s)
    ensures var d := Absorb(db, p, survivor, a);
            && ConversationsLinked(db.contacts, d.conversations)
            && MessagesLinked(d.conversations, d.messages, d.activities)
  {
    assert Others(a.order, survivor) == Pool(db, ws, p, s) - {survivor};
  }

  lemma RestStaysLinked(db: Db, ws: Id, p: Id, s: Id)
    requires Valid(db) && MergeRefused(db, ws, p, s).None?
    ensures ChannelsLinked(db.contacts, MergeChannels(db, ws, p, s).channels)
    ensures RunsLinked(db.contacts, MergeWorkflowRuns(db, ws, p, s).workflowRuns)
    ensures HistoryLinked(db.contacts, MergeHistory(db, ws, p, s).history)
  {
  }

  lemma MergeKeepsUniqueness(db: Db, ws: Id, p: Id, s: Id)
    requires Valid(db) && MergeRefused(db, ws, p, s).None?
    ensures ChannelsUnique(MergeChannels(db, ws, p, s).channels)
    ensures HistoryUnique(MergeHistory(db, ws, p, s).history)
  {
    var d, h := MergeChannels(db, ws, p, s), MergeHistory(db, ws, p, s).history;
    forall a, b | a in d.channels && b in d.channels && SameIdentity(d.channels[a], d.channels[b])
      ensures a == b
    {
      assert SameIdentity(db.channels[a], db.channels[b]);
    }
    forall a, b | a in h && b in h && h[a].contact == h[b].contact && SameHistory(h[a], h[b])
      ensures a == b
    {
      assert Linked(db.contacts, db.history[a].contact, db.history[a].ws)
             && Linked(db.contacts, db.history[b].contact, db.history[b].ws);
      if db.history[a].contact != db.history[b].contact {
        assert HistoryKnown(db.history, ws, p, db.history[if db.history[a].contact == p then b else a]);
      }
    }
  }

  /** Links only look at the ids and workspaces of contacts, which a merge does not change. */
  lemma LinkKeepsLinks(db: Db, p: Id, s: Id, d: Db)
    requires s in db.contacts && d.contacts == LinkSecondary(db, p, s).contacts
    ensures forall c, ws :: Linked(db.contacts, c, ws) <==> Linked(d.contacts, c, ws)
  {
  }

  lemma TagsStayLinked(db: Db, p: Id, s: Id, selected: set<string>)
    requires TagsLinked(db.contacts, db.tagNames, db.tags) && p in db.contacts
    ensures TagsLinked(db.contacts, db.tagNames, MergeTags(db, p, s, selected).tags)
  {
  }

  lemma LastStaysLinked(db: Db, ws: Id, p: Id, s: Id, a: Answers)
    requires Accepted(db, ws, p, s, a)
    ensures LastLinked(MergeConversations(db, p, a).conversations, MergeConversations(db, p, a).messages)
  {
  }

  /** A merge keeps every foreign key and every unique index in `Valid`. */
  lemma MergeKeepsValid(db: Db, ws: Id, p: Id, s: Id, selected: set<string>, a: Answers)
    requires Accepted(db, ws, p, s, a)
    ensures Valid(After(db, ws, p, s, selected, a))
  {
    var d := After(db, ws, p, s, selected, a);
    MergeParts(db, ws, p, s, selected, a);
    TagsStayLinked(db, p, s, selected);
    LastStaysLinked(db, ws, p, s, a);
    ConversationsStayLinked(db, ws, p, s, a);
    RestStaysLinked(db, ws, p, s);
    MergeKeepsUniqueness(db, ws, p, s);
    LinkKeepsLinks(db, p, s, d);
    StillValid(db, d);
  }

  /** `Valid` looks at contacts only through their links. */
  lemma StillValid(db: Db, d: Db)
    requires Valid(d.(contacts := db.contacts))
    requires forall c, ws :: Linked(db.contacts, c, ws) <==> Linked(d.contacts, c, ws)
    requires db.contacts.Keys <= d.contacts.Keys
    ensures Valid(d)
  {
  }

  lemma ConversationsStayLinked(db: Db, ws: Id, p: Id, s: Id, a: Answers)
    requires Accepted(db, ws, p, s, a)
    ensures var d := MergeConversations(db, p, a);
            && ConversationsLinked(db.contacts, d.conversations)
            && MessagesLinked(d.conversations, d.messages, d.activities)
  {
    if a.order != [] {
      var survivor := Survivor(db.conversations, p, a.order).value;
      assert survivor in Pool(db, ws, p, s);
      AbsorbLinked(db, ws, p, s, survivor, a);
    }
  }

  // ---------------------------------------------------------------- the last message

  /** The survivor's last message is its latest one, and the conversations outside the pool keep theirs. */
  lemma LastMessagesAfter(db: Db, ws: Id, p: Id, s: Id, a: Answers, c: Id)
    requires Accepted(db, ws, p, s, a) && c in MergeConversations(db, p, a).conversations
    ensures var d := MergeConversations(db, p, a);
            if a.order != [] && c == Survivor(db.conversations, p, a.order).value then
              && d.conversations[c].lastMessage == a.latest
              && LatestMessage(d.messages, c, false, a.latest) && LatestMessage(d.messages, c, true, a.latestIncoming)
              && d.conversations[c].lastMessageAt == TimeOf(d.messages, a.latest)
              && d.conversations[c].lastIncomingAt == TimeOf(d.messages, a.latestIncoming)
            else c in db.conversations && c !in Pool(db, ws, p, s) && d.conversations[c] == db.conversations[c]
  {
    if a.order != [] {
      assert Others(a.order, Survivor(db.conversations, p, a.order).value)
          == Pool(db, ws, p, s) - {Survivor(db.conversations, p, a.order).value};
    }
  }

  /**
   * The index on `lastMessageId` survives a merge exactly if no conversation of a third contact points at the message
   * that becomes the survivor's last one.
   */
  lemma LastStaysUniqueIff(db: Db, ws: Id, p: Id, s: Id, selected: set<string>, a: Answers)
    requires Accepted(db, ws, p, s, a) && LastUnique(db.conversations)
    ensures LastUnique(After(db, ws, p, s, selected, a).conversations)
       <==> (a.order != [] && a.latest.Some? ==>
               forall c | c in db.conversations && c !in Pool(db, ws, p, s) ::
                 db.conversations[c].lastMessage != a.latest)
  {
    MergeParts(db, ws, p, s, selected, a);
    var d := MergeConversations(db, p, a);
    if a.order == [] {
      assert d == db;
    } else {
      var survivor := Survivor(db.conversations, p, a.order).value;
      LastMessagesAfter(db, ws, p, s, a, survivor);
      OutsideStays(db, ws, p, s, a);
      OneRowIsNew(db.conversations, d.conversations, Pool(db, ws, p, s), survivor);
    }
  }

  /** The pool gave way to one row; the index holds exactly if that row's last message is nobody else's. */
  lemma OneRowIsNew(convs: map<Id, Conversation>, next: map<Id, Conversation>, pool: set<Id>, survivor: Id)
    requires LastUnique(convs) && survivor in pool && survivor in next
    requires forall c | c in convs && c !in pool :: c in next && next[c] == convs[c]
    requires forall c | c in next && c != survivor :: c in convs && c !in pool && next[c] == convs[c]
    ensures LastUnique(next)
       <==> (next[survivor].lastMessage.Some? ==>
               forall c | c in convs && c !in pool :: convs[c].lastMessage != next[survivor].lastMessage)
  {
    var latest := next[survivor].lastMessage;
    if latest.Some? {
      if c :| c in convs && c !in pool && convs[c].lastMessage == latest {
        assert c in next && next[c].lastMessage == next[survivor].lastMessage && c != survivor;
      }
    }
  }

  lemma OutsideStays(db: Db, ws: Id, p: Id, s: Id, a: Answers)
    requires Accepted(db, ws, p, s, a) && a.order != []
    ensures var d := MergeConversations(db, p, a);
            && (forall c | c in db.conversations && c !in Pool(db, ws, p, s) ::
                  c in d.conversations && d.conversations[c] == db.conversations[c])
            && (forall c | c in d.conversations && c != Survivor(db.conversations, p, a.order).value ::
                  c in db.conversations && c !in Pool(db, ws, p, s) && d.conversations[c] == db.conversations[c])
  {
    var survivor := Survivor(db.conversations, p, a.order).value;
    assert survivor in Pool(db, ws, p, s);
    assert Others(a.order, survivor) == Pool(db, ws, p, s) - {survivor};
  }

  /** So it always survives if every last message belongs to its own conversation, which the merge keeps. */
  lemma LastStaysOwn(db: Db, ws: Id, p: Id, s: Id, selected: set<string>, a: Answers)
    requires Accepted(db, ws, p, s, a) && LastOwn(db.conversations, db.messages)
    ensures var d := After(db, ws, p, s, selected, a);
            LastOwn(d.conversations, d.messages) && LastUnique(d.conversations)
  {
    MergeParts(db, ws, p, s, selected, a);
    var d := MergeConversations(db, p, a);
    if a.order == [] {
      assert d == db;
    } else {
      var survivor := Survivor(db.conversations, p, a.order).value;
      LastMessagesAfter(db, ws, p, s, a, survivor);
      OutsideStays(db, ws, p, s, a);
      assert Others(a.order, survivor) <= Pool(db, ws, p, s);
      forall c | c in d.conversations && c != survivor && d.conversations[c].lastMessage.Some?
        ensures d.messages[d.conversations[c].lastMessage.value].conversation == c
      {
        assert db.messages[db.conversations[c].lastMessage.value].conversation == c;
      }
    }
  }
}
