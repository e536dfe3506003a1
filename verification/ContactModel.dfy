/** Tables touched by a contact merge, and the merge as one transaction over them. */
module ContactModel {
  import opened Common

  type Id = nat

  /** `mergedAt` is the position of the contact's merge in the log of merge runs. */
  datatype Contact = Contact(ws: Id, mergedInto: Option<Id>, mergedAt: nat)

  datatype Conversation = Conversation(
    ws: Id, contact: Id, subject: Option<string>, priority: string, unread: int,
    firstResponseAt: Option<int>, resolvedAt: Option<int>, slaDueAt: Option<int>, slaBreached: bool,
    lastMessage: Option<Id>, lastMessageAt: Option<int>, lastIncomingAt: Option<int>)

  datatype Message = Message(conversation: Id, createdAt: int, incoming: bool)

  datatype Channel = Channel(ws: Id, contact: Id, channelId: Id, identifier: string)

  /** A workflow run or any other row that only points at a contact. */
  datatype Owned = Owned(ws: Id, contact: Id)

  /** A row of `notification_email_history`. */
  datatype History = History(ws: Id, contact: Id, user: Id, kind: Id, session: Id)

  datatype MergeRun = MergeRun(primary: Id, secondary: Id)

  datatype Db = Db(
    contacts: map<Id, Contact>,
    conversations: map<Id, Conversation>,
    messages: map<Id, Message>,
    activities: map<Id, Id>,
    channels: map<Id, Channel>,
    tags: set<(Id, Id)>,
    tagNames: map<Id, string>,
    workflowRuns: map<Id, Owned>,
    history: map<Id, History>,
    mergeRuns: seq<MergeRun>)

  // ---------------------------------------------------------------- the database's own rules

  predicate SameIdentity(a: Channel, b: Channel) {
    a.ws == b.ws && a.channelId == b.channelId && a.identifier == b.identifier
  }

  predicate SameHistory(a: History, b: History) {
    a.user == b.user && a.kind == b.kind && a.session == b.session
  }

  predicate Linked(contacts: map<Id, Contact>, contact: Id, ws: Id) {
    contact in contacts && contacts[contact].ws == ws
  }

  ghost predicate ConversationsLinked(contacts: map<Id, Contact>, convs: map<Id, Conversation>) {
    forall c | c in convs :: Linked(contacts, convs[c].contact, convs[c].ws)
  }

  ghost predicate MessagesLinked(convs: map<Id, Conversation>, messages: map<Id, Message>, activities: map<Id, Id>) {
    && (forall m | m in messages :: messages[m].conversation in convs)
    && (forall a | a in activities :: activities[a] in convs)
  }

  ghost predicate ChannelsLinked(contacts: map<Id, Contact>, channels: map<Id, Channel>) {
    forall c | c in channels :: Linked(contacts, channels[c].contact, channels[c].ws)
  }

  ghost predicate ChannelsUnique(channels: map<Id, Channel>) {
    forall a, b | a in channels && b in channels && SameIdentity(channels[a], channels[b]) :: a == b
  }

  ghost predicate RunsLinked(contacts: map<Id, Contact>, runs: map<Id, Owned>) {
    forall r | r in runs :: Linked(contacts, runs[r].contact, runs[r].ws)
  }

  ghost predicate HistoryLinked(contacts: map<Id, Contact>, history: map<Id, History>) {
    forall h | h in history :: Linked(contacts, history[h].contact, history[h].ws)
  }

  ghost predicate TagsLinked(contacts: map<Id, Contact>, tagNames: map<Id, string>, tags: set<(Id, Id)>) {
    forall t | t in tags :: t.0 in contacts && t.1 in tagNames
  }

  /** `lastMessageId` points at a message. */
  ghost predicate LastLinked(convs: map<Id, Conversation>, messages: map<Id, Message>) {
    forall c | c in convs && convs[c].lastMessage.Some? :: convs[c].lastMessage.value in messages
  }

  /** Foreign keys and unique indexes of the schema, but for the index on `lastMessageId`. */
  ghost predicate Valid(db: Db) {
    && TagsLinked(db.contacts, db.tagNames, db.tags) && LastLinked(db.conversations, db.messages)
    && ConversationsLinked(db.contacts, db.conversations)
    && MessagesLinked(db.conversations, db.messages, db.activities)
    && ChannelsLinked(db.contacts, db.channels) && ChannelsUnique(db.channels)
    && RunsLinked(db.contacts, db.workflowRuns)
    && HistoryLinked(db.contacts, db.history) && HistoryUnique(db.history)
  }

  /** No two conversations have the same last message. */
  ghost predicate LastUnique(convs: map<Id, Conversation>) {
    forall a, b | a in convs && b in convs && convs[a].lastMessage.Some?
                  && convs[a].lastMessage == convs[b].lastMessage ::
      a == b
  }

  /** The last message of a conversation is one of its own. */
  ghost predicate LastOwn(convs: map<Id, Conversation>, messages: map<Id, Message>) {
    forall c | c in convs && convs[c].lastMessage.Some? ::
      convs[c].lastMessage.value in messages && messages[convs[c].lastMessage.value].conversation == c
  }

  ghost predicate HistoryUnique(history: map<Id, History>) {
    forall a, b | a in history && b in history && history[a].contact == history[b].contact
                  && SameHistory(history[a], history[b]) :: a == b
  }

  // ---------------------------------------------------------------- folding conversations

  function Rank(priority: string): nat {
    match priority
    case "low" => 1
    case "normal" => 2
    case "high" => 3
    case "urgent" => 4
    case _ => 0
  }

  /** The head of a stable sort by falling rank: the first entry whose rank nobody exceeds. */
  function PickPriority(priorities: seq<string>): string {
    if priorities == [] then "normal"
    else if |priorities| == 1 then priorities[0]
    else
      var rest := PickPriority(priorities[1..]);
      if Rank(priorities[0]) >= Rank(rest) then priorities[0] else rest
  }

  function Earlier(a: Option<int>, b: Option<int>): Option<int> {
    if a.None? then b else if b.None? then a else Some(Min(a.value, b.value))
  }

  function Latest(a: Option<int>, b: Option<int>): Option<int> {
    if a.None? then b else if b.None? then a else Some(Max(a.value, b.value))
  }

  function Priorities(rows: seq<Conversation>): seq<string> {
    if rows == [] then [] else [rows[0].priority] + Priorities(rows[1..])
  }

  function UnreadSum(rows: seq<Conversation>): int {
    if rows == [] then 0 else rows[0].unread + UnreadSum(rows[1..])
  }

  function EarliestResponse(rows: seq<Conversation>): Option<int> {
    if rows == [] then None else Earlier(rows[0].firstResponseAt, EarliestResponse(rows[1..]))
  }

  function LatestResolution(rows: seq<Conversation>): Option<int> {
    if rows == [] then None else Latest(rows[0].resolvedAt, LatestResolution(rows[1..]))
  }

  function EarliestDue(rows: seq<Conversation>): Option<int> {
    if rows == [] then None else Earlier(rows[0].slaDueAt, EarliestDue(rows[1..]))
  }

  predicate AnyBreached(rows: seq<Conversation>) {
    exists i | 0 <= i < |rows| :: rows[i].slaBreached
  }

  /** `find((c) => c.subject)?.subject`: an empty subject is passed over. */
  function FirstSubject(rows: seq<Conversation>): Option<string> {
    if rows == [] then None
    else if rows[0].subject.Some? && rows[0].subject.value != "" then rows[0].subject
    else FirstSubject(rows[1..])
  }

  // ---------------------------------------------------------------- the transaction

  /** What the database answers to the ordered queries of the transaction. */
  datatype Answers = Answers(order: seq<Id>, latest: Option<Id>, latestIncoming: Option<Id>)

  /** All conversations of the two contacts. */
  function Pool(db: Db, ws: Id, p: Id, s: Id): set<Id> {
    set c | c in db.conversations && db.conversations[c].ws == ws
            && (db.conversations[c].contact == p || db.conversations[c].contact == s)
  }

  ghost predicate Lists(order: seq<Id>, ids: set<Id>) {
    && (forall i | 0 <= i < |order| :: order[i] in ids)
    && (forall c | c in ids :: c in order)
    && (forall i, j | 0 <= i < j < |order| :: order[i] != order[j])
  }

  ghost predicate AllIn(order: seq<Id>, ids: set<Id>) {
    forall i | 0 <= i < |order| :: order[i] in ids
  }

  function FirstOf(convs: map<Id, Conversation>, p: Id, order: seq<Id>): (r: Option<Id>)
    requires AllIn(order, convs.Keys)
    ensures r.Some? ==> r.value in order && r.value in convs && convs[r.value].contact == p
    ensures r.None? ==> forall i | 0 <= i < |order| :: convs[order[i]].contact != p
  {
    if order == [] then None
    else if convs[order[0]].contact == p then Some(order[0])
    else FirstOf(convs, p, order[1..])
  }

  /** The first conversation of the primary, or else the first of all. */
  function Survivor(convs: map<Id, Conversation>, p: Id, order: seq<Id>): (r: Option<Id>)
    requires AllIn(order, convs.Keys)
    ensures r.None? <==> order == []
    ensures r.Some? ==> r.value in order && r.value in convs
    ensures r.Some? && (exists i | 0 <= i < |order| :: convs[order[i]].contact == p) ==> convs[r.value].contact == p
  {
    OrElse(FirstOf(convs, p, order), if order == [] then None else Some(order[0]))
  }

  function Rows(convs: map<Id, Conversation>, order: seq<Id>): (rows: seq<Conversation>)
    requires AllIn(order, convs.Keys)
    ensures |rows| == |order| && forall i | 0 <= i < |order| :: rows[i] == convs[order[i]]
  {
    if order == [] then [] else [convs[order[0]]] + Rows(convs, order[1..])
  }

  function MovedMessages(messages: map<Id, Message>, gone: set<Id>, to: Id): map<Id, Message> {
    map m | m in messages ::
      if messages[m].conversation in gone then messages[m].(conversation := to) else messages[m]
  }

  function MovedActivities(activities: map<Id, Id>, gone: set<Id>, to: Id): map<Id, Id> {
    map a | a in activities :: if activities[a] in gone then to else activities[a]
  }

  function TimeOf(messages: map<Id, Message>, m: Option<Id>): Option<int> {
    if m.Some? && m.value in messages then Some(messages[m.value].createdAt) else None
  }

  /** The survivor's row: owned by the primary, with the aggregates over all the listed conversations. */
  function Folded(convs: map<Id, Conversation>, p: Id, survivor: Id, a: Answers,
                  messages: map<Id, Message>): Conversation
    requires survivor in convs && AllIn(a.order, convs.Keys)
  {
    var rows, own := Rows(convs, a.order), convs[survivor];
    own.(contact := p,
         subject := OrElse(own.subject, FirstSubject(rows)),
         priority := PickPriority(Priorities(rows)),
         unread := UnreadSum(rows),
         firstResponseAt := EarliestResponse(rows),
         resolvedAt := LatestResolution(rows),
         slaDueAt := EarliestDue(rows),
         slaBreached := AnyBreached(rows),
         lastMessage := a.latest,
         lastMessageAt := TimeOf(messages, a.latest),
         lastIncomingAt := TimeOf(messages, a.latestIncoming))
  }

  /** The survivor takes over the messages and activities of the other listed conversations, which go. */
  function Absorb(db: Db, p: Id, survivor: Id, a: Answers): Db
    requires survivor in db.conversations && AllIn(a.order, db.conversations.Keys)
  {
    var gone := Others(a.order, survivor);
    var messages := MovedMessages(db.messages, gone, survivor);
    db.(messages := messages, activities := MovedActivities(db.activities, gone, survivor),
        conversations := (db.conversations - gone)[survivor := Folded(db.conversations, p, survivor, a, messages)])
  }

  function Others(order: seq<Id>, survivor: Id): set<Id> {
    (set c | c in order) - {survivor}
  }

  function MergeConversations(db: Db, p: Id, a: Answers): Db
    requires AllIn(a.order, db.conversations.Keys)
  {
    var survivor := Survivor(db.conversations, p, a.order);
    if survivor.None? then db else Absorb(db, p, survivor.value, a)
  }

  predicate TagSelected(db: Db, tag: Id, selected: set<string>) {
    selected == {} || (tag in db.tagNames && db.tagNames[tag] in selected)
  }

  /** The tags kept on the primary; an empty selection keeps all of both contacts. */
  function KeptTags(db: Db, p: Id, s: Id, selected: set<string>): set<Id> {
    set t | t in db.tags && (t.0 == p || t.0 == s) && TagSelected(db, t.1, selected) :: t.1
  }

  function MergeTags(db: Db, p: Id, s: Id, selected: set<string>): Db {
    var kept := set tag | tag in KeptTags(db, p, s, selected) :: (p, tag);
    db.(tags := (set t | t in db.tags && t.0 != p && t.0 != s) + kept)
  }

  /** The identities that the primary already has. */
  function ChannelKeys(channels: map<Id, Channel>, p: Id): set<(Id, string)> {
    set c | c in channels && channels[c].contact == p :: Key(channels[c])
  }

  function Key(c: Channel): (Id, string) {
    (c.channelId, c.identifier)
  }

  function ChannelsOf(channels: map<Id, Channel>, ws: Id, s: Id): set<Id> {
    set c | c in channels && channels[c].ws == ws && channels[c].contact == s
  }

  /** The channel table once the rows in `done` were moved to the primary or deleted. */
  function MovedChannels(channels: map<Id, Channel>, p: Id, known: set<(Id, string)>, done: set<Id>): map<Id, Channel> {
    map c | c in channels && !(c in done && Key(channels[c]) in known) ::
      if c in done then channels[c].(contact := p) else channels[c]
  }

  function MergeChannels(db: Db, ws: Id, p: Id, s: Id): Db {
    db.(channels := MovedChannels(db.channels, p, ChannelKeys(db.channels, p), ChannelsOf(db.channels, ws, s)))
  }

  /** Does the primary already have a history row with this row's key? */
  predicate HistoryKnown(history: map<Id, History>, ws: Id, p: Id, row: History) {
    exists o | o in history :: history[o].ws == ws && history[o].contact == p && SameHistory(history[o], row)
  }

  function HistoryOf(history: map<Id, History>, ws: Id, s: Id): set<Id> {
    set h | h in history && history[h].ws == ws && history[h].contact == s
  }

  /** The history table once the rows in `done` were moved to the primary or deleted. */
  function MovedHistory(history: map<Id, History>, ws: Id, p: Id, done: set<Id>): map<Id, History> {
    map h | h in history && !(h in done && HistoryKnown(history, ws, p, history[h])) ::
      if h in done then history[h].(contact := p) else history[h]
  }

  function MergeHistory(db: Db, ws: Id, p: Id, s: Id): Db {
    db.(history := MovedHistory(db.history, ws, p, HistoryOf(db.history, ws, s)))
  }

  function MergeWorkflowRuns(db: Db, ws: Id, p: Id, s: Id): Db {
    db.(workflowRuns := map r | r in db.workflowRuns ::
          if db.workflowRuns[r] == Owned(ws, s) then Owned(ws, p) else db.workflowRuns[r])
  }

  function LinkSecondary(db: Db, p: Id, s: Id): Db
    requires s in db.contacts
  {
    db.(contacts := db.contacts[s := db.contacts[s].(mergedInto := Some(p), mergedAt := |db.mergeRuns|)],
        mergeRuns := db.mergeRuns + [MergeRun(p, s)])
  }

  datatype MergeError = SameContact | NotFound | AlreadyMerged

  /** The checks of the preview and of the transaction, in order. */
  function MergeRefused(db: Db, ws: Id, p: Id, s: Id): Option<MergeError> {
    if p == s then Some(SameContact)
    else if !Linked(db.contacts, p, ws) || !Linked(db.contacts, s, ws) then Some(NotFound)
    else if db.contacts[p].mergedInto.Some? || db.contacts[s].mergedInto.Some? then Some(AlreadyMerged)
    else None
  }

  ghost predicate LatestMessage(messages: map<Id, Message>, conversation: Id, incomingOnly: bool, answer: Option<Id>) {
    if answer.None? then
      forall m | m in messages :: !Matches(messages[m], conversation, incomingOnly)
    else
      && answer.value in messages && Matches(messages[answer.value], conversation, incomingOnly)
      && forall m | m in messages && Matches(messages[m], conversation, incomingOnly) ::
           messages[m].createdAt <= messages[answer.value].createdAt
  }

  predicate Matches(m: Message, conversation: Id, incomingOnly: bool) {
    m.conversation == conversation && (incomingOnly ==> m.incoming)
  }

  /** The answers are right: a complete listing without repetition, and the latest messages of the survivor. */
  ghost predicate Truthful(db: Db, ws: Id, p: Id, s: Id, a: Answers) {
    && Lists(a.order, Pool(db, ws, p, s))
    && (a.order != [] ==>
          var survivor := Survivor(db.conversations, p, a.order).value;
          var messages := MovedMessages(db.messages, Others(a.order, survivor), survivor);
          && LatestMessage(messages, survivor, false, a.latest)
          && LatestMessage(messages, survivor, true, a.latestIncoming))
  }

  /** The whole transaction. */
  function Merge(db: Db, ws: Id, p: Id, s: Id, selected: set<string>, a: Answers): Result<Db, MergeError>
    requires AllIn(a.order, db.conversations.Keys)
  {
    match MergeRefused(db, ws, p, s)
    case Some(e) => Error(e)
    case None =>
      var tagged := MergeTags(db, p, s, selected);
      var joined := MergeChannels(tagged, ws, p, s);
      var folded := MergeConversations(joined, p, a);
      var moved := MergeHistory(MergeWorkflowRuns(folded, ws, p, s), ws, p, s);
      Ok(LinkSecondary(moved, p, s))
  }
}
