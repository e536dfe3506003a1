/** The merge transaction as it runs: row updates and loops over the tables. */
module ContactStore {
  import opened Common
  import opened ContactModel
  import opened ContactConservation

  class Store {
    var db: Db

    constructor (db: Db)
      ensures this.db == db
    {
      this.db := db;
    }

    /** Upserts the kept tags on the primary, then deletes the others and all of the secondary's. */
    method MergeTagRows(p: Id, s: Id, selected: set<string>)
      requires p != s
      modifies this
      ensures db == MergeTags(old(db), p, s, selected)
    {
      var kept := KeptTags(db, p, s, selected);
      var tags := AddTags(db.tags, p, kept);
      tags := set t | t in tags && (t.0 != p || t.1 in kept);
      tags := set t | t in tags && t.0 != s;
      assert tags == MergeTags(db, p, s, selected).tags;
      db := db.(tags := tags);
    }

    /** The upserts of the kept tags. */
    method AddTags(tags: set<(Id, Id)>, p: Id, kept: set<Id>) returns (r: set<(Id, Id)>)
      ensures r == tags + set tag | tag in kept :: (p, tag)
    {
      r := tags;
      var todo := kept;
      while todo != {}
        invariant todo <= kept
        invariant r == tags + set tag | tag in kept - todo :: (p, tag)
        decreases |todo|
      {
        var tag :| tag in todo;
        r, todo := r + {(p, tag)}, todo - {tag};
      }
    }

    /** Moves the secondary's channels one by one, deleting those the primary already has. */
    method MergeChannelRows(ws: Id, p: Id, s: Id)
      modifies this
      ensures db == MergeChannels(old(db), ws, p, s)
    {
      var before := db.channels;
      var known, ours := ChannelKeys(before, p), ChannelsOf(before, ws, s);
      var channels, todo := before, ours;
      NoChannelMoved(before, p, known);
      assert ours - todo == {};
      while todo != {}
        invariant todo <= ours && db == old(db)
        invariant channels == MovedChannels(before, p, known, ours - todo)
        decreases |todo|
      {
        var c :| c in todo;
        MoveChannelStep(before, p, known, ours - todo, c);
        assert ours - (todo - {c}) == ours - todo + {c};
        todo := todo - {c};
        if Key(channels[c]) in known {
          channels := channels - {c};
        } else {
          channels := channels[c := channels[c].(contact := p)];
        }
      }
      assert ours - todo == ours;
      db := db.(channels := channels);
    }

    /** Hands the messages and activities of the other conversations to the survivor and deletes them. */
    method DrainInto(survivor: Id, gone: set<Id>)
      modifies this
      ensures db == old(db).(messages := MovedMessages(old(db).messages, gone, survivor),
                             activities := MovedActivities(old(db).activities, gone, survivor),
                             conversations := old(db).conversations - gone)
    {
      if gone != {} {
        db := db.(messages := map m | m in db.messages ::
                    if db.messages[m].conversation in gone then db.messages[m].(conversation := survivor)
                    else db.messages[m]);
        db := db.(activities := map a | a in db.activities ::
                    if db.activities[a] in gone then survivor else db.activities[a]);
        db := db.(conversations := db.conversations - gone);
      } else {
        assert db.messages == MovedMessages(db.messages, gone, survivor);
        assert db.activities == MovedActivities(db.activities, gone, survivor);
        assert db.conversations == db.conversations - gone;
      }
    }

    method AbsorbInto(p: Id, survivor: Id, a: Answers)
      requires survivor in db.conversations && AllIn(a.order, db.conversations.Keys)
      modifies this
      ensures db == Absorb(old(db), p, survivor, a)
    {
      var start, gone := db, Others(a.order, survivor);
      var folded := Folded(db.conversations, p, survivor, a, MovedMessages(db.messages, gone, survivor));
      var relinked := db.conversations[survivor].(contact := p, lastMessage := None);
      db := db.(conversations := db.conversations[survivor := relinked]);
      DrainInto(survivor, gone);
      db := db.(conversations := db.conversations[survivor := folded]);
      WriteDrainWrite(start.conversations, survivor, relinked, folded, gone);
    }

    method MergeConversationRows(p: Id, a: Answers)
      requires AllIn(a.order, db.conversations.Keys)
      modifies this
      ensures db == MergeConversations(old(db), p, a)
    {
      var survivor := Survivor(db.conversations, p, a.order);
      if survivor.Some? {
        AbsorbInto(p, survivor.value, a);
      }
    }

    /** Moves the secondary's history row by row; a row whose key the primary has by then is deleted. */
    method MergeHistoryRows(ws: Id, p: Id, s: Id)
      requires p != s && HistoryUnique(db.history)
      modifies this
      ensures db == MergeHistory(old(db), ws, p, s)
    {
      var before := db.history;
      var ours := HistoryOf(before, ws, s);
      var history, todo := before, ours;
      NothingMoved(before, ws, p);
      assert ours - todo == {};
      while todo != {}
        invariant todo <= ours && db == old(db)
        invariant history == MovedHistory(before, ws, p, ours - todo)
        decreases |todo|
      {
        var h :| h in todo;
        MoveHistoryStep(before, ws, p, s, ours - todo, h);
        assert ours - (todo - {h}) == ours - todo + {h};
        todo := todo - {h};
        if HistoryKnown(history, ws, p, history[h]) {
          history := history - {h};
        } else {
          history := history[h := history[h].(contact := p)];
        }
      }
      assert ours - todo == ours;
      db := db.(history := history);
    }

    method MoveWorkflowRuns(ws: Id, p: Id, s: Id)
      modifies this
      ensures db == MergeWorkflowRuns(old(db), ws, p, s)
    {
      db := db.(workflowRuns := map r | r in db.workflowRuns ::
                  if db.workflowRuns[r] == Owned(ws, s) then Owned(ws, p) else db.workflowRuns[r]);
    }

    /** What `mergeContacts` does after the conversations. */
    method MoveRestAndLink(ws: Id, p: Id, s: Id)
      requires p != s && s in db.contacts && HistoryUnique(db.history)
      modifies this
      ensures db == LinkSecondary(MergeHistory(MergeWorkflowRuns(old(db), ws, p, s), ws, p, s), p, s)
    {
      MoveWorkflowRuns(ws, p, s);
      MergeHistoryRows(ws, p, s);
      db := db.(contacts := db.contacts[s := db.contacts[s].(mergedInto := Some(p), mergedAt := |db.mergeRuns|)]);
      db := db.(mergeRuns := db.mergeRuns + [MergeRun(p, s)]);
    }

    /** The whole transaction; it keeps the schema's rules and changes nothing if it is refused. */
    method MergeContacts(ws: Id, p: Id, s: Id, selected: set<string>, a: Answers) returns (r: Result<(), MergeError>)
      requires Valid(db) && AllIn(a.order, db.conversations.Keys)
      modifies this
      ensures match Merge(old(db), ws, p, s, selected, a)
              case Ok(next) => r == Ok(()) && db == next
              case Error(e) => r == Error(e) && db == old(db)
      ensures r.Error? || Truthful(old(db), ws, p, s, a) ==> Valid(db)
    {
      var refused := MergeRefused(db, ws, p, s);
      if refused.Some? { return Error(refused.value); }
      if Truthful(db, ws, p, s, a) {
        MergeKeepsValid(db, ws, p, s, selected, a);
      }
      MoveAll(ws, p, s, selected, a);
      return Ok(());
    }

    method MoveAll(ws: Id, p: Id, s: Id, selected: set<string>, a: Answers)
      requires MergeRefused(db, ws, p, s).None? && HistoryUnique(db.history) && AllIn(a.order, db.conversations.Keys)
      modifies this
      ensures db == After(old(db), ws, p, s, selected, a)
    {
      MergeTagRows(p, s, selected);
      MergeChannelRows(ws, p, s);
      MergeConversationRows(p, a);
      MoveRestAndLink(ws, p, s);
    }
  }

  lemma WriteDrainWrite(rows: map<Id, Conversation>, k: Id, first: Conversation, last: Conversation, gone: set<Id>)
    requires k !in gone
    ensures (rows[k := first] - gone)[k := last] == (rows - gone)[k := last]
  {
  }

  lemma MoveChannelStep(before: map<Id, Channel>, p: Id, known: set<(Id, string)>, done: set<Id>, c: Id)
    requires c in before && c !in done
    ensures var channels, next := MovedChannels(before, p, known, done), MovedChannels(before, p, known, done + {c});
            && c in channels && channels[c] == before[c]
            && next == if Key(before[c]) in known then channels - {c} else channels[c := before[c].(contact := p)]
  {
  }

  lemma NoChannelMoved(channels: map<Id, Channel>, p: Id, known: set<(Id, string)>)
    ensures MovedChannels(channels, p, known, {}) == channels
  {
  }

  lemma NothingMoved(history: map<Id, History>, ws: Id, p: Id)
    ensures MovedHistory(history, ws, p, {}) == history
  {
  }

  /** Rows moved earlier in the loop never make a later row redundant: their keys differ. */
  lemma MoveHistoryStep(before: map<Id, History>, ws: Id, p: Id, s: Id, done: set<Id>, h: Id)
    requires HistoryUnique(before) && p != s && done <= HistoryOf(before, ws, s)
    requires h in HistoryOf(before, ws, s) && h !in done
    ensures var history, next := MovedHistory(before, ws, p, done), MovedHistory(before, ws, p, done + {h});
            && h in history && history[h] == before[h]
            && next == if HistoryKnown(history, ws, p, before[h]) then history - {h}
                       else history[h := before[h].(contact := p)]
  {
    var history := MovedHistory(before, ws, p, done);
    assert HistoryKnown(history, ws, p, before[h]) <==> HistoryKnown(before, ws, p, before[h]) by {
      if HistoryKnown(before, ws, p, before[h]) {
        var o :| o in before && before[o].ws == ws && before[o].contact == p && SameHistory(before[o], before[h]);
        assert history[o] == before[o];
      }
      if HistoryKnown(history, ws, p, before[h]) {
        var o :| o in history && history[o].ws == ws && history[o].contact == p && SameHistory(history[o], before[h]);
        assert o !in done;
      }
    }
  }
}
