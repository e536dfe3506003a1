/** Over every run of contact creations and merges, merged contacts form a forest that leads to survivors. */
module ContactForest {
  import opened Common
  import opened ContactModel
  import opened ContactConservation

  datatype Step =
    | Create(id: Id, ws: Id)
    | DoMerge(ws: Id, primary: Id, secondary: Id, selected: set<string>, answers: Answers)

  /** A step whose id is new, or whose database answers are right. */
  ghost predicate Possible(db: Db, s: Step) {
    match s
    case Create(id, _) => id !in db.contacts
    case DoMerge(ws, p, sec, _, a) => MergeRefused(db, ws, p, sec).None? ==> Truthful(db, ws, p, sec, a)
  }

  ghost function Apply(db: Db, s: Step): Db
    requires Possible(db, s)
  {
    match s
    case Create(id, ws) => db.(contacts := db.contacts[id := Contact(ws, None, 0)])
    case DoMerge(ws, p, sec, selected, a) =>
      if MergeRefused(db, ws, p, sec).None? then After(db, ws, p, sec, selected, a) else db
  }

  /** `d` comes out of `db` by possible steps. */
  ghost predicate Reaches(db: Db, steps: seq<Step>, d: Db)
    decreases |steps|
  {
    if steps == [] then d == db
    else Possible(db, steps[0]) && Reaches(Apply(db, steps[0]), steps[1..], d)
  }

  predicate Merged(db: Db, c: Id) {
    c in db.contacts && db.contacts[c].mergedInto.Some?
  }

  predicate Unmerged(db: Db, c: Id) {
    c in db.contacts && db.contacts[c].mergedInto.None?
  }

  /** A merged contact points at a contact of its workspace that was merged later, or not at all. */
  ghost predicate Forest(db: Db) {
    forall c | Merged(db, c) ::
      var into := db.contacts[c].mergedInto.value;
      && into in db.contacts && db.contacts[into].ws == db.contacts[c].ws
      && db.contacts[c].mergedAt < |db.mergeRuns|
      && (Merged(db, into) ==> db.contacts[c].mergedAt < db.contacts[into].mergedAt)
  }

  /** Every conversation and every channel hangs from an unmerged contact. */
  ghost predicate Hanging(db: Db) {
    && (forall c | c in db.conversations :: Unmerged(db, db.conversations[c].contact))
    && (forall c | c in db.channels :: Unmerged(db, db.channels[c].contact))
  }

  lemma StepKeepsForest(db: Db, s: Step)
    requires Valid(db) && Forest(db) && Possible(db, s)
    ensures Valid(Apply(db, s)) && Forest(Apply(db, s))
  {
    match s
    case Create(id, ws) =>
    case DoMerge(ws, p, sec, selected, a) =>
      if MergeRefused(db, ws, p, sec).None? {
        MergeKeepsValid(db, ws, p, sec, selected, a);
        MergeParts(db, ws, p, sec, selected, a);
        LinkKeepsForest(db, p, sec, After(db, ws, p, sec, selected, a));
      }
  }

  /** Linking an unmerged contact to another unmerged one of its workspace. */
  lemma LinkKeepsForest(db: Db, p: Id, s: Id, d: Db)
    requires Forest(db) && p != s && Unmerged(db, p) && Unmerged(db, s) && db.contacts[p].ws == db.contacts[s].ws
    requires d.contacts == LinkSecondary(db, p, s).contacts && d.mergeRuns == db.mergeRuns + [MergeRun(p, s)]
    ensures Forest(d)
  {
    forall c | Merged(d, c)
      ensures var into := d.contacts[c].mergedInto.value;
              && into in d.contacts && d.contacts[into].ws == d.contacts[c].ws
              && d.contacts[c].mergedAt < |d.mergeRuns|
              && (Merged(d, into) ==> d.contacts[c].mergedAt < d.contacts[into].mergedAt)
    {
      assert c == s || Merged(db, c);
    }
  }

  lemma StepKeepsHanging(db: Db, s: Step)
    requires Valid(db) && Hanging(db) && Possible(db, s)
    ensures Hanging(Apply(db, s))
  {
    match s
    case Create(id, ws) =>
    case DoMerge(ws, p, sec, selected, a) =>
      if MergeRefused(db, ws, p, sec).None? {
        MergeKeepsHanging(db, ws, p, sec, selected, a);
      }
  }

  lemma MergeKeepsHanging(db: Db, ws: Id, p: Id, s: Id, selected: set<string>, a: Answers)
    requires Hanging(db) && Accepted(db, ws, p, s, a)
    ensures Hanging(After(db, ws, p, s, selected, a))
  {
    var d := After(db, ws, p, s, selected, a);
    MergeParts(db, ws, p, s, selected, a);
    forall c | c in d.conversations
      ensures Unmerged(d, d.conversations[c].contact)
    {
      ConversationOrSame(db, d, ws, p, s, a, c);
      StillUnmerged(db, d, p, s, d.conversations[c].contact);
    }
    forall c | c in d.channels
      ensures Unmerged(d, d.channels[c].contact)
    {
      ChannelOrSame(db, d, ws, p, s, c);
      StillUnmerged(db, d, p, s, d.channels[c].contact);
    }
  }

  lemma StillUnmerged(db: Db, d: Db, p: Id, s: Id, c: Id)
    requires s in db.contacts && d.contacts == LinkSecondary(db, p, s).contacts && Unmerged(db, c) && c != s
    ensures Unmerged(d, c)
  {
  }

  /** A conversation after the merge is the primary's, or the same one of a third contact. */
  lemma ConversationOrSame(db: Db, d: Db, ws: Id, p: Id, s: Id, a: Answers, c: Id)
    requires Accepted(db, ws, p, s, a) && d.conversations == MergeConversations(db, p, a).conversations
    requires c in d.conversations
    ensures d.conversations[c].contact == p
            || (c in db.conversations && d.conversations[c].contact == db.conversations[c].contact != s)
  {
    if c in ConversationsOf(db, p) + ConversationsOf(db, s) {
      PoolSurvivor(db, d, ws, p, s, a, c);
    }
  }

  lemma ChannelOrSame(db: Db, d: Db, ws: Id, p: Id, s: Id, c: Id)
    requires Valid(db) && Linked(db.contacts, s, ws) && p != s && d.channels == MergeChannels(db, ws, p, s).channels
    requires c in d.channels
    ensures d.channels[c].contact == p || (c in db.channels && d.channels[c].contact == db.channels[c].contact != s)
  {
    assert Linked(db.contacts, db.channels[c].contact, db.channels[c].ws);
  }

  /** A conversation of the pool that is still there belongs to the primary. */
  lemma PoolSurvivor(db: Db, d: Db, ws: Id, p: Id, s: Id, a: Answers, c: Id)
    requires Accepted(db, ws, p, s, a) && d.conversations == MergeConversations(db, p, a).conversations
    requires c in d.conversations && c in ConversationsOf(db, p) + ConversationsOf(db, s)
    ensures d.conversations[c].contact == p
  {
    PoolIsBoth(db, ws, p, s);
    assert c in a.order;
  }

  /** The three invariants hold after every run that starts with them. */
  lemma {:induction false} RunKeepsForest(db: Db, steps: seq<Step>, d: Db)
    requires Valid(db) && Forest(db) && Reaches(db, steps, d)
    ensures Valid(d) && Forest(d)
    ensures Hanging(db) ==> Hanging(d)
    decreases |steps|
  {
    if steps != [] {
      StepKeepsForest(db, steps[0]);
      if Hanging(db) { StepKeepsHanging(db, steps[0]); }
      RunKeepsForest(Apply(db, steps[0]), steps[1..], d);
    }
  }

  /** Over every run the last message of a conversation stays one of its own, so no two conversations share one. */
  lemma {:induction false} RunKeepsLastMessages(db: Db, steps: seq<Step>, d: Db)
    requires Valid(db) && Forest(db) && LastOwn(db.conversations, db.messages) && Reaches(db, steps, d)
    ensures LastOwn(d.conversations, d.messages) && LastUnique(d.conversations)
    decreases |steps|
  {
    if steps != [] {
      StepKeepsForest(db, steps[0]);
      StepKeepsLastMessages(db, steps[0]);
      RunKeepsLastMessages(Apply(db, steps[0]), steps[1..], d);
    }
  }

  lemma StepKeepsLastMessages(db: Db, s: Step)
    requires Valid(db) && LastOwn(db.conversations, db.messages) && Possible(db, s)
    ensures LastOwn(Apply(db, s).conversations, Apply(db, s).messages)
  {
    match s
    case Create(_, _) =>
    case DoMerge(ws, p, sec, selected, a) =>
      if MergeRefused(db, ws, p, sec).None? {
        LastStaysOwn(db, ws, p, sec, selected, a);
      }
  }

  // ---------------------------------------------------------------- what a forest means

  /** The contact that `c` has been merged into in the end. */
  ghost function Root(db: Db, c: Id): (r: Id)
    requires Forest(db) && c in db.contacts
    ensures Unmerged(db, r) && db.contacts[r].ws == db.contacts[c].ws
    decreases if Merged(db, c) then |db.mergeRuns| - db.contacts[c].mergedAt else 0
  {
    if Unmerged(db, c) then c else
      assert Merged(db, c);
      Root(db, db.contacts[c].mergedInto.value)
  }

  /** A walk along `mergedIntoContactId`. */
  ghost predicate Walk(db: Db, path: seq<Id>) {
    && path != []
    && (forall i | 0 <= i < |path| :: path[i] in db.contacts)
    && (forall i | 0 <= i < |path| - 1 :: db.contacts[path[i]].mergedInto == Some(path[i + 1]))
  }

  /** Every walk that cannot go on ends in the one root of its first contact. */
  lemma {:induction false} WalksEndInTheRoot(db: Db, path: seq<Id>)
    requires Forest(db) && Walk(db, path) && Unmerged(db, path[|path| - 1])
    ensures path[|path| - 1] == Root(db, path[0])
    decreases |path|
  {
    if |path| > 1 {
      assert Walk(db, path[1..]);
      WalksEndInTheRoot(db, path[1..]);
      assert Merged(db, path[0]) && db.contacts[path[0]].mergedInto == Some(path[1]);
    }
  }

  lemma {:induction false} WalksGoForward(db: Db, path: seq<Id>)
    requires Forest(db) && Walk(db, path) && |path| > 1 && Merged(db, path[|path| - 1])
    ensures db.contacts[path[0]].mergedAt < db.contacts[path[|path| - 1]].mergedAt
    decreases |path|
  {
    assert db.contacts[path[0]].mergedInto == Some(path[0 + 1]);
    assert Merged(db, path[0]);
    if |path| > 2 {
      assert Walk(db, path[1..]);
      WalksGoForward(db, path[1..]);
      assert db.contacts[path[1]].mergedInto == Some(path[1 + 1]);
      assert Merged(db, path[1]);
    }
  }

  /** No walk comes back to where it started. */
  lemma NoCycles(db: Db, path: seq<Id>)
    requires Forest(db) && Walk(db, path) && |path| > 1
    ensures path[0] != path[|path| - 1]
  {
    assert db.contacts[path[0]].mergedInto == Some(path[0 + 1]);
    if Merged(db, path[|path| - 1]) {
      WalksGoForward(db, path);
    }
  }

  /** After every run from a forest: no cycle, and every contact leads to exactly one unmerged contact. */
  lemma MergedContactsLeadToOneSurvivor(db: Db, steps: seq<Step>, d: Db, path: seq<Id>)
    requires Valid(db) && Forest(db) && Reaches(db, steps, d) && Walk(d, path)
    ensures |path| > 1 ==> path[0] != path[|path| - 1]
    ensures Forest(d) && Unmerged(d, Root(d, path[0]))
    ensures Unmerged(d, path[|path| - 1]) ==> path[|path| - 1] == Root(d, path[0])
  {
    RunKeepsForest(db, steps, d);
    if |path| > 1 { NoCycles(d, path); }
    if Unmerged(d, path[|path| - 1]) { WalksEndInTheRoot(d, path); }
  }
}
