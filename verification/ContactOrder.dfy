/**
 * The aggregates of the surviving conversation do not depend on the order of the merges.
 *
 * Conversations have summaries that add up (a commutative monoid). A merge conserves the total summary
 * of any group of contacts that contains both of its contacts, so after all merges the one conversation
 * that is left carries the total of everything that was there at the start.
 */
module ContactOrder {
  import opened Common
  import opened ContactModel
  import opened ContactConservation

  /** The order-free part of a conversation: `rank` stands for its priority. */
  datatype Summary = Summary(
    unread: int, rank: nat, firstResponse: Option<int>, resolved: Option<int>, due: Option<int>, breached: bool)

  const NOTHING := Summary(0, 0, None, None, None, false)

  function SummaryOf(c: Conversation): Summary {
    Summary(c.unread, Rank(c.priority), c.firstResponseAt, c.resolvedAt, c.slaDueAt, c.slaBreached)
  }

  function Join(a: Summary, b: Summary): Summary {
    Summary(a.unread + b.unread, Max(a.rank, b.rank), Earlier(a.firstResponse, b.firstResponse),
            Latest(a.resolved, b.resolved), Earlier(a.due, b.due), a.breached || b.breached)
  }

  lemma JoinLaws(a: Summary, b: Summary, c: Summary)
    ensures Join(a, b) == Join(b, a)
    ensures Join(a, Join(b, c)) == Join(Join(a, b), c)
    ensures Join(a, NOTHING) == a
  {
  }

  /** The total over a set of conversations, taken in any order. */
  ghost function Total(convs: map<Id, Conversation>, ids: set<Id>): Summary
    requires ids <= convs.Keys
    decreases |ids|
  {
    if ids == {} then NOTHING
    else
      var c :| c in ids;
      Join(SummaryOf(convs[c]), Total(convs, ids - {c}))
  }

  /** Any element may be taken out first. */
  lemma {:induction false} TotalTake(convs: map<Id, Conversation>, ids: set<Id>, c: Id)
    requires ids <= convs.Keys && c in ids
    ensures Total(convs, ids) == Join(SummaryOf(convs[c]), Total(convs, ids - {c}))
    decreases |ids|
  {
    var d :| d in ids && Total(convs, ids) == Join(SummaryOf(convs[d]), Total(convs, ids - {d}));
    if d != c {
      TotalTake(convs, ids - {d}, c);
      TotalTake(convs, ids - {c}, d);
      assert ids - {d} - {c} == ids - {c} - {d};
      JoinLaws(SummaryOf(convs[c]), SummaryOf(convs[d]), Total(convs, ids - {c} - {d}));
      JoinLaws(SummaryOf(convs[d]), SummaryOf(convs[c]), Total(convs, ids - {c} - {d}));
    }
  }

  lemma {:induction false} TotalUnion(convs: map<Id, Conversation>, a: set<Id>, b: set<Id>)
    requires a + b <= convs.Keys && a !! b
    ensures Total(convs, a + b) == Join(Total(convs, a), Total(convs, b))
    decreases |a|
  {
    if a == {} {
      assert a + b == b;
      JoinLaws(Total(convs, b), NOTHING, NOTHING);
    } else {
      var c :| c in a;
      TotalTake(convs, a + b, c);
      TotalTake(convs, a, c);
      assert a + b - {c} == (a - {c}) + b;
      TotalUnion(convs, a - {c}, b);
      JoinLaws(SummaryOf(convs[c]), Total(convs, a - {c}), Total(convs, b));
    }
  }

  lemma {:induction false} TotalFrame(convs: map<Id, Conversation>, other: map<Id, Conversation>, ids: set<Id>)
    requires ids <= convs.Keys && ids <= other.Keys && forall c | c in ids :: convs[c] == other[c]
    ensures Total(convs, ids) == Total(other, ids)
    decreases |ids|
  {
    if ids != {} {
      var c :| c in ids;
      TotalTake(convs, ids, c);
      TotalTake(other, ids, c);
      TotalFrame(convs, other, ids - {c});
    }
  }

  // ---------------------------------------------------------------- folding a listing

  function FoldedSummary(rows: seq<Conversation>): Summary {
    Summary(UnreadSum(rows), Rank(PickPriority(Priorities(rows))), EarliestResponse(rows),
            LatestResolution(rows), EarliestDue(rows), AnyBreached(rows))
  }

  lemma FoldedSummaryCons(row: Conversation, rows: seq<Conversation>)
    requires rows != []
    ensures FoldedSummary([row] + rows) == Join(SummaryOf(row), FoldedSummary(rows))
  {
    var all := [row] + rows;
    assert all[1..] == rows && Priorities(all)[1..] == Priorities(rows) && Priorities(rows) != [];
    assert AnyBreached(all) == (row.slaBreached || AnyBreached(rows)) by {
      if AnyBreached(rows) {
        var i :| 0 <= i < |rows| && rows[i].slaBreached;
        assert all[i + 1].slaBreached;
      }
      if row.slaBreached { assert all[0].slaBreached; }
    }
  }

  lemma FoldOne(convs: map<Id, Conversation>, order: seq<Id>)
    requires |order| == 1 && AllIn(order, convs.Keys)
    ensures FoldedSummary(Rows(convs, order)) == SummaryOf(convs[order[0]])
  {
    assert Rows(convs, order) == [convs[order[0]]];
    OneRow(convs[order[0]]);
  }

  lemma FoldStep(convs: map<Id, Conversation>, order: seq<Id>)
    requires |order| > 1 && AllIn(order, convs.Keys)
    ensures AllIn(order[1..], convs.Keys)
    ensures FoldedSummary(Rows(convs, order))
         == Join(SummaryOf(convs[order[0]]), FoldedSummary(Rows(convs, order[1..])))
  {
    assert Rows(convs, order) == [convs[order[0]]] + Rows(convs, order[1..]);
    FoldedSummaryCons(convs[order[0]], Rows(convs, order[1..]));
  }

  /** The fold of the source's list functions is the order-free total of the listed conversations. */
  lemma {:induction false} FoldIsTotal(convs: map<Id, Conversation>, order: seq<Id>, ids: set<Id>)
    requires order != [] && ids <= convs.Keys && Lists(order, ids)
    ensures FoldedSummary(Rows(convs, order)) == Total(convs, ids)
    decreases |order|
  {
    var c, rest := order[0], ids - {order[0]};
    if |order| == 1 {
      FoldOne(convs, order);
      assert ids == {c};
      TotalOne(convs, c);
    } else {
      FoldStep(convs, order);
      ListsTail(order, ids);
      FoldIsTotal(convs, order[1..], rest);
      TotalTake(convs, ids, c);
    }
  }

  lemma TotalOne(convs: map<Id, Conversation>, c: Id)
    requires c in convs
    ensures Total(convs, {c}) == SummaryOf(convs[c])
  {
    TotalTake(convs, {c}, c);
    assert {c} - {c} == {};
    JoinLaws(SummaryOf(convs[c]), NOTHING, NOTHING);
  }

  lemma ListsTail(order: seq<Id>, ids: set<Id>)
    requires order != [] && Lists(order, ids)
    ensures Lists(order[1..], ids - {order[0]})
  {
    forall x | x in ids - {order[0]} ensures x in order[1..] {
      assert x in order;
    }
  }

  lemma OneRow(row: Conversation)
    ensures FoldedSummary([row]) == SummaryOf(row)
  {
    assert [row][1..] == [];
    assert Priorities([row]) == [row.priority];
    assert UnreadSum([row]) == row.unread + UnreadSum([]);
    assert EarliestResponse([row]) == Earlier(row.firstResponseAt, EarliestResponse([]));
    assert LatestResolution([row]) == Latest(row.resolvedAt, LatestResolution([]));
    assert EarliestDue([row]) == Earlier(row.slaDueAt, EarliestDue([]));
    assert AnyBreached([row]) <==> [row][0].slaBreached;
  }

  // ---------------------------------------------------------------- groups of contacts

  /** The conversations of a group of contacts. */
  function GroupConversations(db: Db, group: set<Id>): set<Id> {
    set c | c in db.conversations && db.conversations[c].contact in group
  }

  ghost function GroupTotal(db: Db, group: set<Id>): Summary {
    Total(db.conversations, GroupConversations(db, group))
  }

  /** The messages of a group of contacts. */
  function GroupMessages(db: Db, group: set<Id>): set<Id> {
    set m | m in db.messages && db.messages[m].conversation in GroupConversations(db, group)
  }

  function MessagesIn(db: Db, c: Id): set<Id> {
    set m | m in db.messages && db.messages[m].conversation == c
  }

  /** The survivor's new row and the conversations that a merge does not touch. */
  lemma AbsorbTotals(db: Db, ws: Id, p: Id, s: Id, survivor: Id, a: Answers, group: set<Id>)
    requires Valid(db) && MergeRefused(db, ws, p, s).None? && p in group && s in group
    requires Lists(a.order, Pool(db, ws, p, s)) && survivor in Pool(db, ws, p, s)
    ensures var d := Absorb(db, p, survivor, a);
            GroupTotal(d, group) == GroupTotal(db, group)
  {
    var d, pool := Absorb(db, p, survivor, a), Pool(db, ws, p, s);
    AbsorbGathers(db, ws, p, s, survivor, a);
    PoolIsBoth(db, ws, p, s);
    var rest := GroupConversations(db, group) - pool;
    assert GroupConversations(db, group) == pool + rest;
    assert GroupConversations(d, group) == {survivor} + rest;
    TotalUnion(db.conversations, pool, rest);
    TotalUnion(d.conversations, {survivor}, rest);
    TotalFrame(db.conversations, d.conversations, rest);
    TotalOne(d.conversations, survivor);
    FoldIsTotal(db.conversations, a.order, pool);
  }

  lemma AbsorbMessages(db: Db, ws: Id, p: Id, s: Id, survivor: Id, a: Answers, group: set<Id>)
    requires Valid(db) && MergeRefused(db, ws, p, s).None? && p in group && s in group
    requires Lists(a.order, Pool(db, ws, p, s)) && survivor in Pool(db, ws, p, s)
    ensures GroupMessages(Absorb(db, p, survivor, a), group) == GroupMessages(db, group)
  {
    var d, pool := Absorb(db, p, survivor, a), Pool(db, ws, p, s);
    AbsorbGathers(db, ws, p, s, survivor, a);
    PoolIsBoth(db, ws, p, s);
    forall m | m in db.messages
      ensures m in GroupMessages(d, group) <==> m in GroupMessages(db, group)
    {
      if db.messages[m].conversation !in pool {
        assert d.messages[m] == db.messages[m];
      }
    }
  }

  /** A merge inside a group conserves the group's total summary and its messages. */
  lemma MergeConservesGroup(db: Db, ws: Id, p: Id, s: Id, selected: set<string>, a: Answers, group: set<Id>)
    requires Accepted(db, ws, p, s, a) && p in group && s in group
    ensures var d := After(db, ws, p, s, selected, a);
            GroupTotal(d, group) == GroupTotal(db, group) && GroupMessages(d, group) == GroupMessages(db, group)
  {
    var d, e := After(db, ws, p, s, selected, a), MergeConversations(db, p, a);
    MergeParts(db, ws, p, s, selected, a);
    assert GroupConversations(d, group) == GroupConversations(e, group);
    assert GroupMessages(d, group) == GroupMessages(e, group);
    if a.order != [] {
      var survivor := Survivor(db.conversations, p, a.order).value;
      assert survivor in Pool(db, ws, p, s);
      AbsorbTotals(db, ws, p, s, survivor, a, group);
      AbsorbMessages(db, ws, p, s, survivor, a, group);
    }
  }

  // ---------------------------------------------------------------- merging a list of duplicates

  datatype Duplicate = Duplicate(contact: Id, selected: set<string>, answers: Answers)

  /** `d` comes out of `db` by merging the duplicates into `p`, one after the other. */
  ghost predicate MergedAll(db: Db, ws: Id, p: Id, dups: seq<Duplicate>, d: Db)
    decreases |dups|
  {
    if dups == [] then d == db
    else
      && Accepted(db, ws, p, dups[0].contact, dups[0].answers)
      && MergedAll(After(db, ws, p, dups[0].contact, dups[0].selected, dups[0].answers), ws, p, dups[1..], d)
  }

  function Contacts(dups: seq<Duplicate>): set<Id> {
    set i | 0 <= i < |dups| :: dups[i].contact
  }

  /** A duplicate that was merged owns no conversation from then on. */
  lemma {:induction false} EmptyStaysEmpty(db: Db, ws: Id, p: Id, dups: seq<Duplicate>, d: Db, c: Id)
    requires MergedAll(db, ws, p, dups, d) && c != p && ConversationsOf(db, c) == {}
    ensures ConversationsOf(d, c) == {}
    decreases |dups|
  {
    if dups != [] {
      var next := After(db, ws, p, dups[0].contact, dups[0].selected, dups[0].answers);
      EmptyAfterOne(db, ws, p, dups[0], c);
      EmptyStaysEmpty(next, ws, p, dups[1..], d, c);
    }
  }

  lemma EmptyAfterOne(db: Db, ws: Id, p: Id, dup: Duplicate, c: Id)
    requires Accepted(db, ws, p, dup.contact, dup.answers) && c != p
             && (c == dup.contact || ConversationsOf(db, c) == {})
    ensures ConversationsOf(After(db, ws, p, dup.contact, dup.selected, dup.answers), c) == {}
  {
    var d := After(db, ws, p, dup.contact, dup.selected, dup.answers);
    if c == dup.contact {
      NoMessageIsLost(db, ws, p, dup.contact, dup.selected, dup.answers);
    } else {
      forall x | x in d.conversations ensures d.conversations[x].contact != c {
        PoolOrSame(db, ws, p, dup, x);
        assert x !in ConversationsOf(db, c);
      }
    }
  }

  /** A conversation after the merge is the primary's or as it was. */
  lemma PoolOrSame(db: Db, ws: Id, p: Id, dup: Duplicate, x: Id)
    requires Accepted(db, ws, p, dup.contact, dup.answers)
    requires x in After(db, ws, p, dup.contact, dup.selected, dup.answers).conversations
    ensures var d := After(db, ws, p, dup.contact, dup.selected, dup.answers);
            d.conversations[x].contact == p || (x in db.conversations && d.conversations[x] == db.conversations[x])
  {
    MergeParts(db, ws, p, dup.contact, dup.selected, dup.answers);
    FoldedOrSame(db, p, dup.answers, x);
  }

  lemma FoldedOrSame(db: Db, p: Id, a: Answers, x: Id)
    requires AllIn(a.order, db.conversations.Keys) && x in MergeConversations(db, p, a).conversations
    ensures var d := MergeConversations(db, p, a);
            d.conversations[x].contact == p || (x in db.conversations && d.conversations[x] == db.conversations[x])
  {
  }

  /**
   * After all merges the group of the primary and its duplicates has the total and the messages it
   * started with, and at most one conversation, which is the primary's.
   */
  lemma {:induction false} AllMergedConserves(db: Db, ws: Id, p: Id, dups: seq<Duplicate>, d: Db, group: set<Id>)
    requires MergedAll(db, ws, p, dups, d) && p in group && Contacts(dups) <= group
    ensures GroupTotal(d, group) == GroupTotal(db, group) && GroupMessages(d, group) == GroupMessages(db, group)
    ensures forall c | c in Contacts(dups) && c != p :: ConversationsOf(d, c) == {}
    ensures dups != [] ==> forall x, y | x in ConversationsOf(d, p) && y in ConversationsOf(d, p) :: x == y
    decreases |dups|
  {
    if dups != [] {
      var first, rest := dups[0], dups[1..];
      var next := After(db, ws, p, first.contact, first.selected, first.answers);
      assert first.contact in Contacts(dups);
      assert Contacts(dups) == {first.contact} + Contacts(rest) by {
        forall i | 0 <= i < |rest| ensures rest[i].contact in Contacts(dups) {
          assert dups[i + 1] == rest[i];
        }
        forall i | 0 < i < |dups| ensures dups[i].contact in Contacts(rest) {
          assert dups[i] == rest[i - 1];
        }
      }
      MergeConservesGroup(db, ws, p, first.contact, first.selected, first.answers, group);
      AllMergedConserves(next, ws, p, rest, d, group);
      EmptyAfterOne(db, ws, p, first, first.contact);
      EmptyStaysEmpty(next, ws, p, rest, d, first.contact);
      if rest == [] {
        NoMessageIsLost(db, ws, p, first.contact, first.selected, first.answers);
      }
    }
  }

  lemma OnlyOneLeft(db: Db, ws: Id, p: Id, dups: seq<Duplicate>, d: Db, c: Id)
    requires MergedAll(db, ws, p, dups, d) && dups != [] && c in ConversationsOf(d, p)
    ensures GroupConversations(d, {p} + Contacts(dups)) == {c}
  {
    var group := {p} + Contacts(dups);
    AllMergedConserves(db, ws, p, dups, d, group);
    forall x | x in GroupConversations(d, group) ensures x == c {
      assert x in ConversationsOf(d, d.conversations[x].contact);
    }
  }

  /** The one conversation that is left carries the initial total and all the initial messages of the group. */
  lemma SurvivorCarriesTheTotal(db: Db, ws: Id, p: Id, dups: seq<Duplicate>, d: Db, c: Id)
    requires MergedAll(db, ws, p, dups, d) && dups != [] && c in ConversationsOf(d, p)
    ensures SummaryOf(d.conversations[c]) == GroupTotal(db, {p} + Contacts(dups))
    ensures MessagesIn(d, c) == GroupMessages(db, {p} + Contacts(dups))
  {
    var group := {p} + Contacts(dups);
    AllMergedConserves(db, ws, p, dups, d, group);
    OnlyOneLeft(db, ws, p, dups, d, c);
    TotalOne(d.conversations, c);
  }

  // ---------------------------------------------------------------- priorities

  predicate Known(priority: string) {
    Rank(priority) > 0
  }

  /** The conversations of a group of contacts have known priorities. */
  ghost predicate KnownPriorities(db: Db, group: set<Id>) {
    forall c | c in GroupConversations(db, group) :: Known(db.conversations[c].priority)
  }

  lemma {:induction false} PickIsHighest(priorities: seq<string>)
    requires priorities != []
    ensures PickPriority(priorities) in priorities
    ensures forall i | 0 <= i < |priorities| :: Rank(priorities[i]) <= Rank(PickPriority(priorities))
    decreases |priorities|
  {
    if |priorities| > 1 {
      PickIsHighest(priorities[1..]);
      assert forall i | 1 <= i < |priorities| :: priorities[i] == priorities[1..][i - 1];
    }
  }

  /** A list of priorities whose pick is the same however the list is ordered. */
  ghost predicate OrderFree(priorities: seq<string>) {
    forall other | multiset(other) == multiset(priorities) :: PickPriority(other) == PickPriority(priorities)
  }

  /** The pick ignores the order exactly when some priority is known or all are the same. */
  lemma PickIsOrderFreeIff(priorities: seq<string>)
    requires priorities != []
    ensures OrderFree(priorities)
       <==> || (exists i | 0 <= i < |priorities| :: Known(priorities[i]))
            || (forall i | 0 <= i < |priorities| :: priorities[i] == priorities[0])
  {
    if exists i | 0 <= i < |priorities| :: Known(priorities[i]) {
      forall other | multiset(other) == multiset(priorities)
        ensures PickPriority(other) == PickPriority(priorities)
      {
        SamePick(priorities, other);
      }
    } else if forall i | 0 <= i < |priorities| :: priorities[i] == priorities[0] {
      forall other | multiset(other) == multiset(priorities)
        ensures PickPriority(other) == PickPriority(priorities)
      {
        PickOfEquals(priorities, other);
      }
    } else {
      PickDependsOnOrder(priorities);
    }
  }

  lemma PickOfEquals(a: seq<string>, b: seq<string>)
    requires a != [] && multiset(a) == multiset(b) && forall i | 0 <= i < |a| :: a[i] == a[0]
    ensures PickPriority(a) == PickPriority(b)
  {
    assert a[0] in multiset(b);
    PickIsHighest(a);
    PickIsHighest(b);
    assert PickPriority(b) in multiset(a);
  }

  /** Two different unknown priorities: moving the second one to the front changes the pick. */
  lemma PickDependsOnOrder(priorities: seq<string>)
    requires forall i | 0 <= i < |priorities| :: !Known(priorities[i])
    requires exists i | 0 <= i < |priorities| :: priorities[i] != priorities[0]
    ensures !OrderFree(priorities)
  {
    var i :| 0 <= i < |priorities| && priorities[i] != priorities[0];
    var moved := [priorities[i]] + priorities[..i] + priorities[i + 1..];
    assert priorities == priorities[..i] + [priorities[i]] + priorities[i + 1..];
    assert multiset(moved) == multiset(priorities);
    FirstOfEquals(priorities);
    FirstOfEquals(moved);
  }

  /** Two unknown priorities, picked by position. */
  lemma UnknownPrioritiesFollowTheOrder()
    ensures PickPriority(["vip", "spam"]) == "vip" && PickPriority(["spam", "vip"]) == "spam"
    ensures multiset(["vip", "spam"]) == multiset(["spam", "vip"]) && !OrderFree(["vip", "spam"])
  {
    FirstOfEquals(["vip", "spam"]);
    FirstOfEquals(["spam", "vip"]);
  }

  lemma SamePick(a: seq<string>, b: seq<string>)
    requires a != [] && multiset(a) == multiset(b) && exists i | 0 <= i < |a| :: Known(a[i])
    ensures PickPriority(a) == PickPriority(b)
  {
    assert a[0] in multiset(b);
    PickIsHighest(a);
    PickIsHighest(b);
    assert PickPriority(a) in multiset(b) && PickPriority(b) in multiset(a);
  }

  /** Among priorities of equal rank the first is picked. */
  lemma FirstOfEquals(priorities: seq<string>)
    requires priorities != [] && forall x | x in priorities :: !Known(x)
    ensures PickPriority(priorities) == priorities[0]
  {
    PickIsHighest(priorities);
    if |priorities| > 1 {
      PickIsHighest(priorities[1..]);
    }
  }

  lemma FoldKeepsKnown(db: Db, ws: Id, p: Id, dup: Duplicate, group: set<Id>)
    requires Accepted(db, ws, p, dup.contact, dup.answers) && p in group && dup.contact in group
    requires KnownPriorities(db, group)
    ensures KnownPriorities(After(db, ws, p, dup.contact, dup.selected, dup.answers), group)
  {
    var a, d := dup.answers, After(db, ws, p, dup.contact, dup.selected, dup.answers);
    MergeParts(db, ws, p, dup.contact, dup.selected, a);
    forall c | c in GroupConversations(d, group) ensures Known(d.conversations[c].priority) {
      LastMessagesAfter(db, ws, p, dup.contact, a, c);
      if a.order != [] && c == Survivor(db.conversations, p, a.order).value {
        FoldedIsKnown(db, ws, p, dup.contact, a, group);
      } else {
        assert c in GroupConversations(db, group);
      }
    }
  }

  /** The survivor gets one of the priorities of the pool, which are all known. */
  lemma FoldedIsKnown(db: Db, ws: Id, p: Id, s: Id, a: Answers, group: set<Id>)
    requires Lists(a.order, Pool(db, ws, p, s)) && a.order != [] && p in group && s in group
    requires KnownPriorities(db, group)
    ensures Known(PickPriority(Priorities(Rows(db.conversations, a.order))))
  {
    var rows := Rows(db.conversations, a.order);
    PrioritiesAt(rows);
    PickIsHighest(Priorities(rows));
    assert a.order[0] in Pool(db, ws, p, s);
    assert a.order[0] in GroupConversations(db, group) && Known(rows[0].priority);
    assert Priorities(rows)[0] == rows[0].priority;
  }

  lemma {:induction false} PrioritiesAt(rows: seq<Conversation>)
    ensures |Priorities(rows)| == |rows| && forall i | 0 <= i < |rows| :: Priorities(rows)[i] == rows[i].priority
    decreases |rows|
  {
    if rows != [] { PrioritiesAt(rows[1..]); }
  }

  lemma {:induction false} AllMergedKeepKnown(db: Db, ws: Id, p: Id, dups: seq<Duplicate>, d: Db, group: set<Id>)
    requires MergedAll(db, ws, p, dups, d) && p in group && Contacts(dups) <= group && KnownPriorities(db, group)
    ensures KnownPriorities(d, group)
    decreases |dups|
  {
    if dups != [] {
      var rest := dups[1..];
      assert dups[0].contact in Contacts(dups);
      forall i | 0 <= i < |rest| ensures rest[i].contact in Contacts(dups) {
        assert dups[i + 1] == rest[i];
      }
      FoldKeepsKnown(db, ws, p, dups[0], group);
      AllMergedKeepKnown(After(db, ws, p, dups[0].contact, dups[0].selected, dups[0].answers), ws, p, rest, d, group);
    }
  }

  // ---------------------------------------------------------------- the latest messages

  /** The times on a row are those of the latest messages of the conversation. */
  ghost predicate TimesAreLatest(d: Db, c: Id)
    requires c in d.conversations
  {
    && (exists m :: LatestMessage(d.messages, c, false, m) && d.conversations[c].lastMessageAt == TimeOf(d.messages, m))
    && (exists m :: LatestMessage(d.messages, c, true, m) && d.conversations[c].lastIncomingAt == TimeOf(d.messages, m))
  }

  lemma MergeSetsTimes(db: Db, ws: Id, p: Id, dup: Duplicate, c: Id)
    requires Accepted(db, ws, p, dup.contact, dup.answers)
    requires c in ConversationsOf(After(db, ws, p, dup.contact, dup.selected, dup.answers), p)
    ensures TimesAreLatest(After(db, ws, p, dup.contact, dup.selected, dup.answers), c)
  {
    var a := dup.answers;
    MergeParts(db, ws, p, dup.contact, dup.selected, a);
    LastMessagesAfter(db, ws, p, dup.contact, a, c);
    PoolIsBoth(db, ws, p, dup.contact);
  }

  lemma {:induction false} AllMergedSetTimes(db: Db, ws: Id, p: Id, dups: seq<Duplicate>, d: Db, c: Id)
    requires MergedAll(db, ws, p, dups, d) && dups != [] && c in ConversationsOf(d, p)
    ensures TimesAreLatest(d, c)
    decreases |dups|
  {
    if |dups| == 1 {
      assert dups[1..] == [];
      MergeSetsTimes(db, ws, p, dups[0], c);
    } else {
      AllMergedSetTimes(After(db, ws, p, dups[0].contact, dups[0].selected, dups[0].answers), ws, p, dups[1..], d, c);
    }
  }

  /** Merges move messages and change nothing else about them. */
  ghost predicate SameMessages(db: Db, d: Db) {
    && d.messages.Keys == db.messages.Keys
    && forall m | m in db.messages ::
         d.messages[m].createdAt == db.messages[m].createdAt && d.messages[m].incoming == db.messages[m].incoming
  }

  lemma {:induction false} AllMergedKeepMessages(db: Db, ws: Id, p: Id, dups: seq<Duplicate>, d: Db)
    requires MergedAll(db, ws, p, dups, d)
    ensures SameMessages(db, d)
    decreases |dups|
  {
    if dups != [] {
      var next := After(db, ws, p, dups[0].contact, dups[0].selected, dups[0].answers);
      MergeKeepsMessages(db, ws, p, dups[0]);
      AllMergedKeepMessages(next, ws, p, dups[1..], d);
    }
  }

  lemma MergeKeepsMessages(db: Db, ws: Id, p: Id, dup: Duplicate)
    requires Accepted(db, ws, p, dup.contact, dup.answers)
    ensures SameMessages(db, After(db, ws, p, dup.contact, dup.selected, dup.answers))
  {
    MergeParts(db, ws, p, dup.contact, dup.selected, dup.answers);
    FoldKeepsMessages(db, p, dup.answers);
  }

  lemma FoldKeepsMessages(db: Db, p: Id, a: Answers)
    requires AllIn(a.order, db.conversations.Keys)
    ensures SameMessages(db, MergeConversations(db, p, a))
  {
  }

  /** The latest time depends on the set of messages only. */
  lemma LatestTimesAgree(d: Db, c: Id, e: Db, x: Id, incoming: bool, m: Option<Id>, n: Option<Id>)
    requires SameMessages(d, e) && MessagesIn(d, c) == MessagesIn(e, x)
    requires LatestMessage(d.messages, c, incoming, m) && LatestMessage(e.messages, x, incoming, n)
    ensures TimeOf(d.messages, m) == TimeOf(e.messages, n)
  {
    SameMatches(d, c, e, x, incoming);
    if m.Some? {
      assert Matches(e.messages[m.value], x, incoming);
    }
    if n.Some? {
      assert Matches(d.messages[n.value], c, incoming);
    }
  }

  lemma SameMatches(d: Db, c: Id, e: Db, x: Id, incoming: bool)
    requires SameMessages(d, e) && MessagesIn(d, c) == MessagesIn(e, x)
    ensures forall m | m in d.messages :: Matches(d.messages[m], c, incoming) <==> Matches(e.messages[m], x, incoming)
  {
    forall m | m in d.messages ensures Matches(d.messages[m], c, incoming) <==> Matches(e.messages[m], x, incoming) {
      assert m in MessagesIn(d, c) <==> m in MessagesIn(e, x);
    }
  }

  lemma TimesAgree(d: Db, c: Id, e: Db, x: Id)
    requires c in d.conversations && x in e.conversations && TimesAreLatest(d, c) && TimesAreLatest(e, x)
    requires SameMessages(d, e) && MessagesIn(d, c) == MessagesIn(e, x)
    ensures d.conversations[c].lastMessageAt == e.conversations[x].lastMessageAt
    ensures d.conversations[c].lastIncomingAt == e.conversations[x].lastIncomingAt
  {
    var m, n :| LatestMessage(d.messages, c, false, m) && d.conversations[c].lastMessageAt == TimeOf(d.messages, m)
                && LatestMessage(e.messages, x, false, n) && e.conversations[x].lastMessageAt == TimeOf(e.messages, n);
    LatestTimesAgree(d, c, e, x, false, m, n);
    var i, j :| LatestMessage(d.messages, c, true, i) && d.conversations[c].lastIncomingAt == TimeOf(d.messages, i)
                && LatestMessage(e.messages, x, true, j) && e.conversations[x].lastIncomingAt == TimeOf(e.messages, j);
    LatestTimesAgree(d, c, e, x, true, i, j);
  }

  /** Merging the same duplicates in two orders leaves the same aggregates, messages, message times and priority. */
  lemma MergeOrderIsIrrelevant(db: Db, ws: Id, p: Id, a: seq<Duplicate>, b: seq<Duplicate>, d: Db, e: Db, c: Id, x: Id)
    requires MergedAll(db, ws, p, a, d) && MergedAll(db, ws, p, b, e)
    requires a != [] && b != [] && Contacts(a) == Contacts(b)
    requires c in ConversationsOf(d, p) && x in ConversationsOf(e, p)
    ensures SummaryOf(d.conversations[c]) == SummaryOf(e.conversations[x])
    ensures MessagesIn(d, c) == MessagesIn(e, x)
    ensures d.conversations[c].lastMessageAt == e.conversations[x].lastMessageAt
    ensures d.conversations[c].lastIncomingAt == e.conversations[x].lastIncomingAt
    ensures KnownPriorities(db, {p} + Contacts(a)) ==> d.conversations[c].priority == e.conversations[x].priority
  {
    SurvivorCarriesTheTotal(db, ws, p, a, d, c);
    SurvivorCarriesTheTotal(db, ws, p, b, e, x);
    TimesIgnoreTheOrder(db, ws, p, a, b, d, e, c, x);
    var group := {p} + Contacts(a);
    if KnownPriorities(db, group) {
      AllMergedKeepKnown(db, ws, p, a, d, group);
      AllMergedKeepKnown(db, ws, p, b, e, group);
      assert c in GroupConversations(d, group) && x in GroupConversations(e, group);
      RankIsThePriority(d.conversations[c], e.conversations[x]);
    }
  }

  lemma TimesIgnoreTheOrder(db: Db, ws: Id, p: Id, a: seq<Duplicate>, b: seq<Duplicate>, d: Db, e: Db, c: Id, x: Id)
    requires MergedAll(db, ws, p, a, d) && MergedAll(db, ws, p, b, e) && a != [] && b != []
    requires c in ConversationsOf(d, p) && x in ConversationsOf(e, p) && MessagesIn(d, c) == MessagesIn(e, x)
    ensures d.conversations[c].lastMessageAt == e.conversations[x].lastMessageAt
    ensures d.conversations[c].lastIncomingAt == e.conversations[x].lastIncomingAt
  {
    AllMergedSetTimes(db, ws, p, a, d, c);
    AllMergedSetTimes(db, ws, p, b, e, x);
    AllMergedKeepMessages(db, ws, p, a, d);
    AllMergedKeepMessages(db, ws, p, b, e);
    TimesAgree(d, c, e, x);
  }

  lemma RankIsThePriority(a: Conversation, b: Conversation)
    requires Known(a.priority) && Known(b.priority) && SummaryOf(a) == SummaryOf(b)
    ensures a.priority == b.priority
  {
  }

  /** Either every order leaves the primary with a conversation, or none does. */
  lemma SurvivorExistsInEveryOrder(db: Db, ws: Id, p: Id, dups: seq<Duplicate>, d: Db)
    requires MergedAll(db, ws, p, dups, d) && dups != []
    ensures ConversationsOf(d, p) == {} <==> GroupConversations(db, {p} + Contacts(dups)) == {}
  {
    NonEmptyKept(db, ws, p, dups, d, {p} + Contacts(dups));
    AllMergedConserves(db, ws, p, dups, d, {p} + Contacts(dups));
    if x :| x in GroupConversations(d, {p} + Contacts(dups)) {
      assert x in ConversationsOf(d, d.conversations[x].contact);
    }
    if x :| x in ConversationsOf(d, p) {
      assert x in GroupConversations(d, {p} + Contacts(dups));
    }
  }

  lemma {:induction false} NonEmptyKept(db: Db, ws: Id, p: Id, dups: seq<Duplicate>, d: Db, group: set<Id>)
    requires MergedAll(db, ws, p, dups, d) && p in group && Contacts(dups) <= group
    ensures GroupConversations(d, group) == {} <==> GroupConversations(db, group) == {}
    decreases |dups|
  {
    if dups != [] {
      var first, rest := dups[0], dups[1..];
      assert first.contact in Contacts(dups);
      forall i | 0 <= i < |rest| ensures rest[i].contact in Contacts(dups) {
        assert dups[i + 1] == rest[i];
      }
      NonEmptyAfterOne(db, ws, p, first, group);
      NonEmptyKept(After(db, ws, p, first.contact, first.selected, first.answers), ws, p, rest, d, group);
    }
  }

  lemma NonEmptyAfterOne(db: Db, ws: Id, p: Id, dup: Duplicate, group: set<Id>)
    requires Accepted(db, ws, p, dup.contact, dup.answers) && p in group && dup.contact in group
    ensures GroupConversations(After(db, ws, p, dup.contact, dup.selected, dup.answers), group) == {}
       <==> GroupConversations(db, group) == {}
  {
    var d := After(db, ws, p, dup.contact, dup.selected, dup.answers);
    var pool := ConversationsOf(db, p) + ConversationsOf(db, dup.contact);
    NoMessageIsLost(db, ws, p, dup.contact, dup.selected, dup.answers);
    if pool != {} {
      var survivor :| Gathered(db, d, p, pool, survivor);
      assert survivor in ConversationsOf(d, p);
      assert survivor in GroupConversations(d, group) && survivor in GroupConversations(db, group);
    } else {
      forall x | x in d.conversations
        ensures x in GroupConversations(d, group) <==> x in GroupConversations(db, group)
      {
        assert x !in pool;
      }
      forall x | x in GroupConversations(db, group)
        ensures x in GroupConversations(d, group)
      {
        assert x !in pool;
      }
    }
  }
}
