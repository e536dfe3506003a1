/** What a merge does to each table, row by row. */
module ContactOutcomes {
  import opened Common
  import opened ContactModel
  import opened ContactConservation

  /** A merge is refused for these reasons exactly, in this order. */
  lemma RefusedIff(db: Db, ws: Id, p: Id, s: Id)
    ensures var known := p in db.contacts && s in db.contacts && db.contacts[p].ws == ws && db.contacts[s].ws == ws;
            && (MergeRefused(db, ws, p, s) == Some(SameContact) <==> p == s)
            && (MergeRefused(db, ws, p, s) == Some(NotFound) <==> p != s && !known)
            && (MergeRefused(db, ws, p, s) == Some(AlreadyMerged) <==>
                  p != s && known && (db.contacts[p].mergedInto.Some? || db.contacts[s].mergedInto.Some?))
  {
  }

  /** The secondary points at the primary; no other contact changes, and the merge is logged. */
  lemma ContactsOutcome(db: Db, ws: Id, p: Id, s: Id, selected: set<string>, a: Answers)
    requires Accepted(db, ws, p, s, a)
    ensures var d := After(db, ws, p, s, selected, a);
            && d.contacts.Keys == db.contacts.Keys
            && d.contacts[s] == Contact(db.contacts[s].ws, Some(p), |db.mergeRuns|)
            && (forall c | c in db.contacts && c != s :: d.contacts[c] == db.contacts[c])
            && d.mergeRuns == db.mergeRuns + [MergeRun(p, s)]
  {
  }

  /**
   * No activity is lost: those of both contacts' conversations are in the one conversation that the primary is left
   * with, and no other activity changes.
   */
  lemma NoActivityIsLost(db: Db, ws: Id, p: Id, s: Id, selected: set<string>, a: Answers)
    requires Accepted(db, ws, p, s, a)
    ensures var d, pool := After(db, ws, p, s, selected, a), ConversationsOf(db, p) + ConversationsOf(db, s);
            && d.activities.Keys == db.activities.Keys
            && (forall x | x in db.activities && db.activities[x] in pool :: {d.activities[x]} == ConversationsOf(d, p))
            && (forall x | x in db.activities && db.activities[x] !in pool :: d.activities[x] == db.activities[x])
  {
    var d, pool := After(db, ws, p, s, selected, a), ConversationsOf(db, p) + ConversationsOf(db, s);
    MergeParts(db, ws, p, s, selected, a);
    PoolIsBoth(db, ws, p, s);
    if a.order == [] {
      assert pool == {};
    } else {
      SurvivorIsLeft(db, ws, p, s, selected, a);
      ActivitiesMove(db, ws, p, s, a);
    }
  }

  lemma ActivitiesMove(db: Db, ws: Id, p: Id, s: Id, a: Answers)
    requires Accepted(db, ws, p, s, a) && a.order != []
    ensures var d, survivor := MergeConversations(db, p, a), Survivor(db.conversations, p, a.order).value;
            && d.activities.Keys == db.activities.Keys
            && forall x | x in db.activities ::
                 d.activities[x] == if db.activities[x] in Pool(db, ws, p, s) then survivor else db.activities[x]
  {
    var survivor := Survivor(db.conversations, p, a.order).value;
    assert Others(a.order, survivor) == Pool(db, ws, p, s) - {survivor};
  }

  /** The primary is left with the survivor and no other conversation. */
  lemma SurvivorIsLeft(db: Db, ws: Id, p: Id, s: Id, selected: set<string>, a: Answers)
    requires Accepted(db, ws, p, s, a) && a.order != []
    ensures ConversationsOf(After(db, ws, p, s, selected, a), p) == {Survivor(db.conversations, p, a.order).value}
  {
    var survivor := Survivor(db.conversations, p, a.order).value;
    var d := After(db, ws, p, s, selected, a);
    MergeParts(db, ws, p, s, selected, a);
    assert survivor in Pool(db, ws, p, s);
    AbsorbGathers(db, ws, p, s, survivor, a);
    SameConversations(db, Absorb(db, p, survivor, a), d, p, s, Pool(db, ws, p, s), survivor);
  }

  /** The survivor is the first listed conversation of the primary, or the first of all if it has none. */
  lemma {:induction false} SurvivorIsFirst(convs: map<Id, Conversation>, p: Id, order: seq<Id>)
    requires AllIn(order, convs.Keys) && order != []
    ensures exists i | 0 <= i < |order| ::
              && Survivor(convs, p, order) == Some(order[i])
              && (forall j | 0 <= j < i :: convs[order[j]].contact != p)
              && (convs[order[i]].contact == p
                  || (i == 0 && forall j | 0 <= j < |order| :: convs[order[j]].contact != p))
  {
    if FirstOf(convs, p, order).None? {
      assert Survivor(convs, p, order) == Some(order[0]);
      assert forall j | 0 <= j < |order| :: convs[order[j]].contact != p;
    } else {
      FirstOfIsFirst(convs, p, order);
    }
  }

  lemma {:induction false} FirstOfIsFirst(convs: map<Id, Conversation>, p: Id, order: seq<Id>)
    requires AllIn(order, convs.Keys) && FirstOf(convs, p, order).Some?
    ensures exists i | 0 <= i < |order| ::
              && FirstOf(convs, p, order) == Some(order[i]) && convs[order[i]].contact == p
              && (forall j | 0 <= j < i :: convs[order[j]].contact != p)
    decreases |order|
  {
    if convs[order[0]].contact == p {
      assert FirstOf(convs, p, order) == Some(order[0]);
    } else {
      var rest := order[1..];
      FirstOfIsFirst(convs, p, rest);
      var i :| 0 <= i < |rest| && FirstOf(convs, p, rest) == Some(rest[i]) && convs[rest[i]].contact == p
               && forall j | 0 <= j < i :: convs[rest[j]].contact != p;
      assert order[i + 1] == rest[i];
      forall j | 0 <= j < i + 1 ensures convs[order[j]].contact != p {
        assert j == 0 || order[j] == rest[j - 1];
      }
    }
  }

  /** The survivor keeps its workspace and its subject, or gets the first one that is not empty. */
  lemma SubjectOutcome(db: Db, ws: Id, p: Id, s: Id, selected: set<string>, a: Answers)
    requires Accepted(db, ws, p, s, a) && a.order != []
    ensures var d, survivor := After(db, ws, p, s, selected, a), Survivor(db.conversations, p, a.order).value;
            && survivor in d.conversations && d.conversations[survivor].ws == db.conversations[survivor].ws
            && (db.conversations[survivor].subject.Some? ==>
                  d.conversations[survivor].subject == db.conversations[survivor].subject)
            && (db.conversations[survivor].subject.None? ==>
                  IsFirstSubject(d.conversations[survivor].subject, Rows(db.conversations, a.order)))
  {
    MergeParts(db, ws, p, s, selected, a);
    FirstSubjectIs(Rows(db.conversations, a.order));
  }

  predicate HasSubject(c: Conversation) {
    c.subject.Some? && c.subject.value != ""
  }

  ghost predicate IsFirstSubject(subject: Option<string>, rows: seq<Conversation>) {
    if subject.None? then forall i | 0 <= i < |rows| :: !HasSubject(rows[i])
    else exists i | 0 <= i < |rows| ::
           HasSubject(rows[i]) && subject == rows[i].subject && forall j | 0 <= j < i :: !HasSubject(rows[j])
  }

  lemma {:induction false} FirstSubjectIs(rows: seq<Conversation>)
    ensures IsFirstSubject(FirstSubject(rows), rows)
    decreases |rows|
  {
    if rows != [] {
      var rest := rows[1..];
      assert forall i | 1 <= i < |rows| :: rows[i] == rest[i - 1];
      if HasSubject(rows[0]) {
        assert FirstSubject(rows) == rows[0].subject;
      } else {
        FirstSubjectIs(rest);
        if FirstSubject(rest).Some? {
          var i :| 0 <= i < |rest| && HasSubject(rest[i]) && FirstSubject(rest) == rest[i].subject
                   && forall j | 0 <= j < i :: !HasSubject(rest[j]);
          assert rows[i + 1] == rest[i];
          forall j | 0 <= j < i + 1 ensures !HasSubject(rows[j]) {
            assert j == 0 || rows[j] == rest[j - 1];
          }
        }
      }
    }
  }

  // ---------------------------------------------------------------- aggregates of the survivor

  /** `t` is the least of the times there are. */
  ghost predicate IsEarliest(t: Option<int>, times: seq<Option<int>>) {
    if t.None? then forall i | 0 <= i < |times| :: times[i].None?
    else t in times && forall i | 0 <= i < |times| && times[i].Some? :: t.value <= times[i].value
  }

  ghost predicate IsLatest(t: Option<int>, times: seq<Option<int>>) {
    if t.None? then forall i | 0 <= i < |times| :: times[i].None?
    else t in times && forall i | 0 <= i < |times| && times[i].Some? :: times[i].value <= t.value
  }

  lemma EarlierIs(a: Option<int>, b: Option<int>, times: seq<Option<int>>)
    requires IsEarliest(b, times)
    ensures IsEarliest(Earlier(a, b), [a] + times)
  {
    var all := [a] + times;
    assert forall i | 1 <= i < |all| :: all[i] == times[i - 1];
    assert all[0] == a;
  }

  lemma LatestIs(a: Option<int>, b: Option<int>, times: seq<Option<int>>)
    requires IsLatest(b, times)
    ensures IsLatest(Latest(a, b), [a] + times)
  {
    var all := [a] + times;
    assert forall i | 1 <= i < |all| :: all[i] == times[i - 1];
    assert all[0] == a;
  }

  function Responses(rows: seq<Conversation>): seq<Option<int>> {
    seq(|rows|, i requires 0 <= i < |rows| => rows[i].firstResponseAt)
  }

  function Resolutions(rows: seq<Conversation>): seq<Option<int>> {
    seq(|rows|, i requires 0 <= i < |rows| => rows[i].resolvedAt)
  }

  function Dues(rows: seq<Conversation>): seq<Option<int>> {
    seq(|rows|, i requires 0 <= i < |rows| => rows[i].slaDueAt)
  }

  lemma {:induction false} ResponsesAre(rows: seq<Conversation>)
    ensures IsEarliest(EarliestResponse(rows), Responses(rows))
  {
    if rows != [] {
      ResponsesAre(rows[1..]);
      EarlierIs(rows[0].firstResponseAt, EarliestResponse(rows[1..]), Responses(rows[1..]));
      assert Responses(rows) == [rows[0].firstResponseAt] + Responses(rows[1..]);
    }
  }

  lemma {:induction false} ResolutionsAre(rows: seq<Conversation>)
    ensures IsLatest(LatestResolution(rows), Resolutions(rows))
  {
    if rows != [] {
      ResolutionsAre(rows[1..]);
      LatestIs(rows[0].resolvedAt, LatestResolution(rows[1..]), Resolutions(rows[1..]));
      assert Resolutions(rows) == [rows[0].resolvedAt] + Resolutions(rows[1..]);
    }
  }

  lemma {:induction false} DuesAre(rows: seq<Conversation>)
    ensures IsEarliest(EarliestDue(rows), Dues(rows))
  {
    if rows != [] {
      DuesAre(rows[1..]);
      EarlierIs(rows[0].slaDueAt, EarliestDue(rows[1..]), Dues(rows[1..]));
      assert Dues(rows) == [rows[0].slaDueAt] + Dues(rows[1..]);
    }
  }

  const LEVELS := ["low", "normal", "high", "urgent"]

  /** `y` is more urgent than `x`; a priority that is not one of the four is less urgent than all of them. */
  ghost predicate Below(x: string, y: string) {
    exists j | 0 <= j < 4 :: y == LEVELS[j] && forall i | j <= i < 4 :: x != LEVELS[i]
  }

  lemma BelowIff(x: string, y: string)
    ensures Below(x, y) <==> Rank(x) < Rank(y)
  {
    assert LEVELS[0] == "low" && LEVELS[1] == "normal" && LEVELS[2] == "high" && LEVELS[3] == "urgent";
    if Rank(x) < Rank(y) {
      assert y == LEVELS[Rank(y) - 1];
    }
  }

  /** The first of the most urgent. */
  ghost predicate IsMostUrgent(pick: string, rows: seq<Conversation>) {
    exists i | 0 <= i < |rows| ::
      && pick == rows[i].priority && (forall j | 0 <= j < i :: Below(rows[j].priority, pick))
      && forall j | 0 <= j < |rows| :: !Below(pick, rows[j].priority)
  }

  ghost predicate PickedAt(pick: string, rows: seq<Conversation>, i: nat) {
    && i < |rows| && pick == rows[i].priority && (forall j | 0 <= j < i :: Rank(rows[j].priority) < Rank(pick))
    && forall j | 0 <= j < |rows| :: Rank(rows[j].priority) <= Rank(pick)
  }

  lemma {:induction false} PickIs(rows: seq<Conversation>) returns (i: nat)
    requires rows != []
    ensures PickedAt(PickPriority(Priorities(rows)), rows, i)
  {
    var rest := rows[1..];
    assert Priorities(rows)[1..] == Priorities(rest);
    assert forall j | 1 <= j < |rows| :: rows[j] == rest[j - 1];
    i := 0;
    if rest != [] {
      var k := PickIs(rest);
      var pick := PickPriority(Priorities(rest));
      assert |Priorities(rows)| > 1;
      if Rank(rows[0].priority) < Rank(pick) {
        i := k + 1;
        forall j | 0 <= j < i ensures Rank(rows[j].priority) < Rank(pick) {
          assert j == 0 || rows[j] == rest[j - 1];
        }
      }
    }
  }

  lemma MostUrgent(rows: seq<Conversation>)
    requires rows != []
    ensures IsMostUrgent(PickPriority(Priorities(rows)), rows)
  {
    var i := PickIs(rows);
    var pick := PickPriority(Priorities(rows));
    forall j | 0 <= j < |rows|
      ensures Below(rows[j].priority, pick) <==> Rank(rows[j].priority) < Rank(pick)
      ensures !Below(pick, rows[j].priority)
    {
      BelowIff(rows[j].priority, pick);
      BelowIff(pick, rows[j].priority);
    }
  }

  /**
   * The survivor has the earliest first response and due time, the latest resolution and the highest priority of both
   * contacts' conversations, and it is in breach exactly if one of them is.
   */
  lemma AggregatesOutcome(db: Db, ws: Id, p: Id, s: Id, selected: set<string>, a: Answers)
    requires Accepted(db, ws, p, s, a) && a.order != []
    ensures var survivor, rows := Survivor(db.conversations, p, a.order).value, Rows(db.conversations, a.order);
            var d := After(db, ws, p, s, selected, a);
            && survivor in d.conversations
            && var row := d.conversations[survivor];
               && IsEarliest(row.firstResponseAt, Responses(rows)) && IsLatest(row.resolvedAt, Resolutions(rows))
               && IsEarliest(row.slaDueAt, Dues(rows)) && IsMostUrgent(row.priority, rows)
               && (row.slaBreached <==> exists i | 0 <= i < |rows| :: rows[i].slaBreached)
  {
    MergeParts(db, ws, p, s, selected, a);
    var rows := Rows(db.conversations, a.order);
    ResponsesAre(rows);
    ResolutionsAre(rows);
    DuesAre(rows);
    MostUrgent(rows);
  }

  // ---------------------------------------------------------------- rows that follow the contact

  /** The workflow runs of the secondary are the primary's; all others are unchanged. */
  lemma WorkflowRunsOutcome(db: Db, ws: Id, p: Id, s: Id, selected: set<string>, a: Answers)
    requires Accepted(db, ws, p, s, a)
    ensures var d := After(db, ws, p, s, selected, a);
            && d.workflowRuns.Keys == db.workflowRuns.Keys
            && forall r | r in db.workflowRuns ::
                 d.workflowRuns[r] == if db.workflowRuns[r].contact == s then Owned(ws, p) else db.workflowRuns[r]
  {
    MergeParts(db, ws, p, s, selected, a);
    forall r | r in db.workflowRuns && db.workflowRuns[r].contact == s ensures db.workflowRuns[r] == Owned(ws, s) {
      assert Linked(db.contacts, db.workflowRuns[r].contact, db.workflowRuns[r].ws);
    }
  }

  predicate SameChannel(x: Channel, y: Channel) {
    x.channelId == y.channelId && x.identifier == y.identifier
  }

  /**
   * A channel of the secondary goes exactly if the primary has one with the same channel and identifier; otherwise it
   * becomes the primary's. All other channels are unchanged.
   */
  lemma ChannelsOutcome(db: Db, ws: Id, p: Id, s: Id, selected: set<string>, a: Answers, c: Id)
    requires Accepted(db, ws, p, s, a) && c in db.channels
    ensures var d := After(db, ws, p, s, selected, a);
            && d.channels.Keys <= db.channels.Keys
            && (db.channels[c].contact != s ==> c in d.channels && d.channels[c] == db.channels[c])
            && (db.channels[c].contact == s ==>
                  && (c !in d.channels <==> exists x | x in db.channels ::
                        db.channels[x].contact == p && SameChannel(db.channels[x], db.channels[c]))
                  && (c in d.channels ==> d.channels[c] == db.channels[c].(contact := p)))
  {
    MergeParts(db, ws, p, s, selected, a);
    assert Linked(db.contacts, db.channels[c].contact, db.channels[c].ws);
    assert Key(db.channels[c]) in ChannelKeys(db.channels, p)
      <==> exists x | x in db.channels ::
             db.channels[x].contact == p && SameChannel(db.channels[x], db.channels[c]) by {
      if Key(db.channels[c]) in ChannelKeys(db.channels, p) {
        var x :| x in db.channels && db.channels[x].contact == p && Key(db.channels[x]) == Key(db.channels[c]);
        assert SameChannel(db.channels[x], db.channels[c]);
      }
    }
  }

  predicate SameNotice(x: History, y: History) {
    x.user == y.user && x.kind == y.kind && x.session == y.session
  }

  lemma NoticeKnownIff(db: Db, ws: Id, p: Id, s: Id, h: Id)
    requires Valid(db) && MergeRefused(db, ws, p, s).None? && h in db.history
    ensures HistoryKnown(db.history, ws, p, db.history[h])
       <==> exists x | x in db.history :: db.history[x].contact == p && SameNotice(db.history[x], db.history[h])
  {
    if x :| x in db.history && db.history[x].contact == p && SameNotice(db.history[x], db.history[h]) {
      assert Linked(db.contacts, db.history[x].contact, db.history[x].ws);
      assert SameHistory(db.history[x], db.history[h]);
    }
    if HistoryKnown(db.history, ws, p, db.history[h]) {
      var x :| x in db.history && db.history[x].ws == ws && db.history[x].contact == p
               && SameHistory(db.history[x], db.history[h]);
      assert SameNotice(db.history[x], db.history[h]);
    }
  }

  /** The same for the history of notification mails, by user, type and inactivity session. */
  lemma HistoryOutcome(db: Db, ws: Id, p: Id, s: Id, selected: set<string>, a: Answers, h: Id)
    requires Accepted(db, ws, p, s, a) && h in db.history
    ensures var d := After(db, ws, p, s, selected, a);
            && d.history.Keys <= db.history.Keys
            && (db.history[h].contact != s ==> h in d.history && d.history[h] == db.history[h])
            && (db.history[h].contact == s ==>
                  && (h !in d.history <==> exists x | x in db.history ::
                        db.history[x].contact == p && SameNotice(db.history[x], db.history[h]))
                  && (h in d.history ==> d.history[h] == db.history[h].(contact := p)))
  {
    MergeParts(db, ws, p, s, selected, a);
    assert Linked(db.contacts, db.history[h].contact, db.history[h].ws);
    NoticeKnownIff(db, ws, p, s, h);
  }

  lemma KeptTagIff(db: Db, p: Id, s: Id, selected: set<string>, c: Id, tag: Id)
    requires p != s
    ensures (c, tag) in MergeTags(db, p, s, selected).tags <==>
              if c == p then
                && ((p, tag) in db.tags || (s, tag) in db.tags)
                && (selected == {} || (tag in db.tagNames && db.tagNames[tag] in selected))
              else c != s && (c, tag) in db.tags
  {
    if (p, tag) in db.tags && TagSelected(db, tag, selected) {
      assert (p, tag).1 in KeptTags(db, p, s, selected);
    }
    if (s, tag) in db.tags && TagSelected(db, tag, selected) {
      assert (s, tag).1 in KeptTags(db, p, s, selected);
    }
  }

  /** The primary has the tags of both that are selected by name, or all of them if nothing is selected. */
  lemma TagsOutcome(db: Db, ws: Id, p: Id, s: Id, selected: set<string>, a: Answers, c: Id, tag: Id)
    requires Accepted(db, ws, p, s, a)
    ensures var d := After(db, ws, p, s, selected, a);
            && d.tagNames == db.tagNames
            && ((c, tag) in d.tags <==>
                  if c == p then
                    && ((p, tag) in db.tags || (s, tag) in db.tags)
                    && (selected == {} || (tag in db.tagNames && db.tagNames[tag] in selected))
                  else c != s && (c, tag) in db.tags)
  {
    MergeParts(db, ws, p, s, selected, a);
    KeptTagIff(db, p, s, selected, c, tag);
  }
}
