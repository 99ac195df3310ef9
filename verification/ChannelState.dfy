/**
 The channel page reducer: a snapshot of the history and a stream of message events, merged in whatever
 order they arrive.
 */
module ChannelState {
  import opened Text

  datatype Message = Message(
    id: string, channelId: string, threadId: Option<string>, authorId: string, body: string, createdAt: string)

  datatype Page = Page(messages: seq<Message>, olderCursor: Option<string>)

  datatype State =
    | Connecting
    | LoadingHistory(buffered: seq<Message>)
    | Error(reason: Reason)
    | Ready(messages: seq<Message>, olderCursor: Option<string>)

  datatype Reason = Contract | OlderConflict | Reported(text: string)

  datatype Action =
    | Connect
    | Opened
    | MessageCreated(message: Message)
    | HistoryLoaded(page: Page)
    | OlderLoaded(page: Page)
    | Failed(text: string)

  predicate SameMessage(a: Message, b: Message) {
    a.id == b.id && a.channelId == b.channelId && a.threadId == b.threadId
    && a.authorId == b.authorId && a.body == b.body && a.createdAt == b.createdAt
  }

  predicate FirstWith(messages: seq<Message>, id: string, k: int) {
    0 <= k < |messages| && messages[k].id == id && forall j | 0 <= j < k :: messages[j].id != id
  }

  /** The first message with the given ID. */
  function Find(messages: seq<Message>, id: string): (r: Option<Message>)
    ensures r.Some? ==> r.value in messages && r.value.id == id
    ensures r.Some? ==> exists k :: FirstWith(messages, id, k) && messages[k] == r.value
    ensures r.None? ==> forall m | m in messages :: m.id != id
  {
    if messages == [] then None
    else if messages[0].id == id then
      assert FirstWith(messages, id, 0);
      Some(messages[0])
    else
      var r := Find(messages[1..], id);
      assert forall k :: FirstWith(messages[1..], id, k) ==> FirstWith(messages, id, k + 1);
      r
  }

  function AppendMessage(messages: seq<Message>, candidate: Message): Option<seq<Message>> {
    match Find(messages, candidate.id)
    case None => Some(messages + [candidate])
    case Some(existing) => if SameMessage(existing, candidate) then Some(messages) else None
  }

  /** Appending a whole stream; none as soon as one message conflicts. */
  function AppendAll(messages: Option<seq<Message>>, stream: seq<Message>): Option<seq<Message>>
    decreases |stream|
  {
    if stream == [] || messages.None? then messages
    else AppendAll(AppendMessage(messages.value, stream[0]), stream[1..])
  }

  /** `mergeInitialHistory`: one pass over the buffered messages. */
  method MergeInitialHistory(history: seq<Message>, buffered: seq<Message>) returns (result: Option<seq<Message>>)
    ensures result == AppendAll(Some(history), buffered)
  {
    result := Some(history);
    var i := 0;
    while i < |buffered|
      invariant 0 <= i <= |buffered| && result.Some?
      invariant AppendAll(result, buffered[i..]) == AppendAll(Some(history), buffered)
    {
      assert buffered[i..][1..] == buffered[i + 1..];
      result := AppendMessage(result.value, buffered[i]);
      i := i + 1;
      if result.None? {
        return;
      }
    }
  }

  function PrependOlderPage(older: seq<Message>, current: seq<Message>): Option<seq<Message>> {
    if exists m :: m in older && exists c :: c in current && c.id == m.id then None else Some(older + current)
  }

  function Merged(messages: Option<seq<Message>>, olderCursor: Option<string>, reason: Reason): State {
    match messages
    case None => Error(reason)
    case Some(ms) => Ready(ms, olderCursor)
  }

  function Reduce(s: State, a: Action): State {
    match a
    case Connect => Connecting
    case Opened => if s.Connecting? then LoadingHistory([]) else s
    case MessageCreated(m) =>
      if s.LoadingHistory? then
        (match AppendMessage(s.buffered, m)
         case None => Error(Contract)
         case Some(ms) => LoadingHistory(ms))
      else if s.Ready? then Merged(AppendMessage(s.messages, m), s.olderCursor, Contract)
      else if s.Connecting? then Error(Contract)
      else s
    case HistoryLoaded(page) =>
      if s.LoadingHistory? then Merged(AppendAll(Some(page.messages), s.buffered), page.olderCursor, Contract) else s
    case OlderLoaded(page) =>
      if s.Ready? then Merged(PrependOlderPage(page.messages, s.messages), page.olderCursor, OlderConflict) else s
    case Failed(text) => Error(Reported(text))
  }

  function Run(s: State, actions: seq<Action>): State
    decreases |actions|
  {
    if actions == [] then s else Run(Reduce(s, actions[0]), actions[1..])
  }

  function Events(stream: seq<Message>): seq<Action> {
    seq(|stream|, i requires 0 <= i < |stream| => MessageCreated(stream[i]))
  }

  // ---------- Appending ----------

  lemma {:induction false} FindInConcat(a: seq<Message>, b: seq<Message>, id: string)
    ensures Find(a + b, id) == if Find(a, id).Some? then Find(a, id) else Find(b, id)
  {
    if a == [] {
      assert a + b == b;
    } else if a[0].id != id {
      FindInConcat(a[1..], b, id);
      assert (a + b)[1..] == a[1..] + b;
    }
  }

  lemma {:induction false} AppendAllSplits(messages: Option<seq<Message>>, a: seq<Message>, b: seq<Message>)
    ensures AppendAll(messages, a + b) == AppendAll(AppendAll(messages, a), b)
    decreases |a|
  {
    if a == [] {
      assert a + b == b;
    } else if messages.Some? {
      assert (a + b)[1..] == a[1..] + b;
      AppendAllSplits(AppendMessage(messages.value, a[0]), a[1..], b);
    }
  }

  lemma {:induction false} ConflictStays(stream: seq<Message>)
    ensures AppendAll(None, stream) == None
  {
  }

  /**
   Appending one message to a merged list is the same as merging it into the second list first. This is
   where the snapshot and the stream commute.
   */
  lemma AppendAfterMerge(page: seq<Message>, buffered: seq<Message>, m: Message)
    ensures var merged := AppendAll(Some(page), buffered);
      AppendAll(merged, [m]) ==
        match AppendMessage(buffered, m)
        case None => None
        case Some(more) => AppendAll(Some(page), more)
  {
    var merged := AppendAll(Some(page), buffered);
    match Find(buffered, m.id) {
      case None =>
        AppendAllSplits(Some(page), buffered, [m]);
      case Some(existing) =>
        if merged.Some? {
          MergedHolds(Some(page), buffered, existing);
          assert AppendAll(merged, [m]) == AppendAll(AppendMessage(merged.value, m), []);
        }
    }
  }

  lemma NextHolds(messages: Option<seq<Message>>, stream: seq<Message>)
    requires stream != [] && AppendAll(messages, stream).Some?
    ensures messages.Some? && AppendMessage(messages.value, stream[0]).Some?
  {
  }

  /** A merge without conflict holds, for each merged message, one with its ID and its content. */
  lemma {:induction false} MergedHolds(messages: Option<seq<Message>>, stream: seq<Message>, m: Message)
    requires AppendAll(messages, stream).Some?
    requires m in stream || (messages.Some? && Find(messages.value, m.id).Some? && SameMessage(Find(messages.value, m.id).value, m))
    ensures var all := AppendAll(messages, stream).value;
      Find(all, m.id).Some? && SameMessage(Find(all, m.id).value, m)
    decreases |stream|
  {
    hide FirstWith;
    if stream != [] {
      var next := AppendMessage(messages.value, stream[0]);
      NextHolds(messages, stream);
      FindInConcat(messages.value, [stream[0]], m.id);
      FindInConcat(messages.value, [stream[0]], stream[0].id);
      if m !in stream[1..] && m in stream {
        assert stream == [stream[0]] + stream[1..];
        assert m == stream[0];
      }
      MergedHolds(next, stream[1..], m);
    }
  }

  // ---------- Confluence ----------

  /** Events before the history only build up what the history is merged with. */
  lemma {:induction false} RunLoading(buffered: seq<Message>, stream: seq<Message>)
    ensures Run(LoadingHistory(buffered), Events(stream)) ==
      match AppendAll(Some(buffered), stream)
      case None => Error(Contract)
      case Some(ms) => LoadingHistory(ms)
    decreases |stream|
  {
    if stream != [] {
      assert Events(stream)[1..] == Events(stream[1..]);
      match AppendMessage(buffered, stream[0]) {
        case None =>
          RunError(Contract, stream[1..]);
          ConflictStays(stream[1..]);
        case Some(ms) => RunLoading(ms, stream[1..]);
      }
    }
  }

  lemma {:induction false} RunError(reason: Reason, stream: seq<Message>)
    ensures Run(Error(reason), Events(stream)) == Error(reason)
    decreases |stream|
  {
    if stream != [] {
      assert Events(stream)[1..] == Events(stream[1..]);
      RunError(reason, stream[1..]);
    }
  }

  lemma {:induction false} RunReady(messages: seq<Message>, olderCursor: Option<string>, stream: seq<Message>)
    ensures Run(Ready(messages, olderCursor), Events(stream)) == Merged(AppendAll(Some(messages), stream), olderCursor, Contract)
    decreases |stream|
  {
    if stream != [] {
      assert Events(stream)[1..] == Events(stream[1..]);
      match AppendMessage(messages, stream[0]) {
        case None =>
          RunError(Contract, stream[1..]);
          ConflictStays(stream[1..]);
        case Some(ms) => RunReady(ms, olderCursor, stream[1..]);
      }
    }
  }

  lemma {:induction false} RunConcat(s: State, a: seq<Action>, b: seq<Action>)
    ensures Run(s, a + b) == Run(Run(s, a), b)
    decreases |a|
  {
    if a == [] {
      assert a + b == b;
    } else {
      assert (a + b)[1..] == a[1..] + b;
      RunConcat(Reduce(s, a[0]), a[1..], b);
    }
  }

  /** Merging a stream that was first collected on its own equals merging it message by message. */
  lemma {:induction false} MergeCollected(page: seq<Message>, buffered: seq<Message>, stream: seq<Message>)
    ensures AppendAll(AppendAll(Some(page), buffered), stream) ==
      match AppendAll(Some(buffered), stream)
      case None => None
      case Some(all) => AppendAll(Some(page), all)
    decreases |stream|
  {
    if stream != [] {
      var m, rest := stream[0], stream[1..];
      var merged := AppendAll(Some(page), buffered);
      AppendAfterMerge(page, buffered, m);
      assert stream == [m] + rest;
      AppendAllSplits(merged, [m], rest);
      match AppendMessage(buffered, m) {
        case None =>
          ConflictStays(rest);
        case Some(more) => MergeCollected(page, more, rest);
      }
    }
  }

  /**
   Confluence: however many of the events arrive before the history, the final state is the one in which the
   history came first - the same messages in the same order, or the same error.
   */
  lemma HistoryPositionIsIrrelevant(page: Page, before: seq<Message>, after: seq<Message>)
    ensures Run(LoadingHistory([]), Events(before) + [HistoryLoaded(page)] + Events(after))
            == Run(LoadingHistory([]), [HistoryLoaded(page)] + Events(before + after))
    ensures Run(LoadingHistory([]), [HistoryLoaded(page)] + Events(before + after))
            == Merged(AppendAll(Some(page.messages), before + after), page.olderCursor, Contract)
  {
    var load := [HistoryLoaded(page)];
    RunConcat(LoadingHistory([]), Events(before) + load, Events(after));
    RunConcat(LoadingHistory([]), Events(before), load);
    RunConcat(LoadingHistory([]), load, Events(before + after));
    RunLoading([], before);
    MergeCollected(page.messages, [], before);
    AppendAllSplits(Some(page.messages), before, after);
    RunReady(page.messages, page.olderCursor, before + after);
    assert load[1..] == [];
    match AppendAll(Some([]), before) {
      case None =>
        assert Run(Error(Contract), load) == Error(Contract);
        RunError(Contract, after);
        ConflictStays(after);
      case Some(collected) =>
        assert Run(LoadingHistory(collected), load) == Merged(AppendAll(Some(page.messages), collected), page.olderCursor, Contract);
        match AppendAll(Some(page.messages), collected) {
          case None =>
            RunError(Contract, after);
            ConflictStays(after);
          case Some(ms) => RunReady(ms, page.olderCursor, after);
        }
    }
  }

  // ---------- Contiguity ----------

  predicate DistinctIds(messages: seq<Message>) {
    forall i, j | 0 <= i < j < |messages| :: messages[i].id != messages[j].id
  }

  lemma AppendKnown(messages: seq<Message>, k: nat)
    requires DistinctIds(messages) && k < |messages|
    ensures AppendMessage(messages, messages[k]) == Some(messages)
  {
  }

  lemma AppendNew(messages: seq<Message>, m: Message)
    requires forall k | 0 <= k < |messages| :: messages[k].id != m.id
    ensures AppendMessage(messages, m) == Some(messages + [m])
  {
  }

  /** A message of the shown stretch changes nothing. */
  lemma OverlapAppends(log: seq<Message>, a: nat, b: nat, c: nat)
    requires DistinctIds(log) && a <= c < b <= |log|
    ensures AppendMessage(log[a..b], log[c]) == Some(log[a..b])
  {
    hide AppendMessage;
    DistinctSlice(log, a, b);
    assert log[a..b][c - a] == log[c];
    AppendKnown(log[a..b], c - a);
  }

  /** The message after the shown stretch is appended to it. */
  lemma NextAppends(log: seq<Message>, a: nat, b: nat)
    requires DistinctIds(log) && a <= b < |log|
    ensures AppendMessage(log[a..b], log[b]) == Some(log[a..b + 1])
  {
    hide AppendMessage;
    var page := log[a..b];
    forall k | 0 <= k < |page| ensures page[k].id != log[b].id { assert page[k] == log[a + k]; }
    AppendNew(page, log[b]);
    assert page + [log[b]] == log[a..b + 1];
  }

  /** Appending a later stretch of a log to an earlier, overlapping or adjacent one fills it up to the later end. */
  lemma {:induction false} AppendStretch(log: seq<Message>, a: nat, b: nat, c: nat, d: nat)
    requires DistinctIds(log) && a <= c <= b <= |log| && c <= d <= |log|
    ensures AppendAll(Some(log[a..b]), log[c..d]) == Some(log[a..if b <= d then d else b])
    decreases d - c
  {
    hide AppendMessage, Find;
    if c < d {
      assert log[c..d][1..] == log[c + 1..d] && log[c..d][0] == log[c];
      if c < b {
        OverlapAppends(log, a, b, c);
        AppendStretch(log, a, b, c + 1, d);
      } else {
        NextAppends(log, a, b);
        AppendStretch(log, a, b + 1, c + 1, d);
      }
    }
  }

  /**
   Contiguity: from a page log[a..b) and the events log[c..d) with a <= c <= b, arriving in any interleaving,
   the page shows exactly log[a..max(b, d)), each message once.
   */
  lemma NothingIsLost(log: seq<Message>, a: nat, b: nat, c: nat, d: nat, k: nat, olderCursor: Option<string>)
    requires DistinctIds(log) && a <= c <= b <= |log| && c <= k <= d <= |log|
    ensures var shown := log[a..if b <= d then d else b];
      Run(LoadingHistory([]), Events(log[c..k]) + [HistoryLoaded(Page(log[a..b], olderCursor))] + Events(log[k..d]))
      == Ready(shown, olderCursor) && DistinctIds(shown)
  {
    hide Run, AppendAll;
    HistoryPositionIsIrrelevant(Page(log[a..b], olderCursor), log[c..k], log[k..d]);
    assert log[c..k] + log[k..d] == log[c..d];
    AppendStretch(log, a, b, c, d);
  }

  /**
   The overlap is needed: when the events start after the page's end, the messages between the two stay out,
   and nothing reports it.
   */
  lemma GapIsKept(log: seq<Message>, a: nat, b: nat, c: nat, d: nat, k: nat, olderCursor: Option<string>)
    requires DistinctIds(log) && a <= b < c < d <= |log| && c <= k <= d
    ensures var final := Run(LoadingHistory([]), Events(log[c..k]) + [HistoryLoaded(Page(log[a..b], olderCursor))] + Events(log[k..d]));
      final == Ready(log[a..b] + log[c..d], olderCursor) && log[b] !in final.messages
  {
    hide Run, AppendAll;
    HistoryPositionIsIrrelevant(Page(log[a..b], olderCursor), log[c..k], log[k..d]);
    assert log[c..k] + log[k..d] == log[c..d];
    AppendDisjoint(log[a..b], log[c..d]);
    assert forall m | m in log[a..b] + log[c..d] :: m.id != log[b].id;
  }

  /** Messages with new, distinct IDs are all appended. */
  lemma {:induction false} AppendDisjoint(messages: seq<Message>, stream: seq<Message>)
    requires DistinctIds(messages + stream)
    ensures AppendAll(Some(messages), stream) == Some(messages + stream)
    decreases |stream|
  {
    if stream == [] {
      assert messages + stream == messages;
    } else {
      var all := messages + stream;
      assert messages + [stream[0]] + stream[1..] == all;
      forall m | m in messages ensures m.id != stream[0].id {
        var i :| 0 <= i < |messages| && messages[i] == m;
        assert all[i].id != all[|messages|].id;
      }
      AppendDisjoint(messages + [stream[0]], stream[1..]);
    }
  }

  /** An older page that ends where the shown stretch begins extends it without a gap. */
  lemma OlderPageIsContiguous(log: seq<Message>, z: nat, a: nat, e: nat, cursor: Option<string>, older: Option<string>)
    requires DistinctIds(log) && z <= a <= e <= |log|
    ensures Reduce(Ready(log[a..e], cursor), OlderLoaded(Page(log[z..a], older))) == Ready(log[z..e], older)
  {
    forall m, c | m in log[z..a] && c in log[a..e] ensures m.id != c.id {
      var i :| 0 <= i < |log[z..a]| && log[z..a][i] == m;
      var j :| 0 <= j < |log[a..e]| && log[a..e][j] == c;
      assert log[z + i].id != log[a + j].id;
    }
    assert log[z..a] + log[a..e] == log[z..e];
  }

  /** What arrives after the history: the next event of the stream, or the next older page, from `first` on. */
  datatype Arrival = Event | Older(first: nat, cursor: Option<string>)

  /** A chain of older pages, each ending where the shown stretch begins, and events up to the end of the log. */
  predicate Arrives(log: seq<Message>, first: nat, next: nat, arrivals: seq<Arrival>)
    decreases |arrivals|
  {
    first <= |log| && next <= |log| && (arrivals == [] ||
      match arrivals[0]
      case Event => next < |log| && Arrives(log, first, next + 1, arrivals[1..])
      case Older(earlier, _) => earlier <= first && Arrives(log, earlier, next, arrivals[1..]))
  }

  function Actions(log: seq<Message>, first: nat, next: nat, arrivals: seq<Arrival>): seq<Action>
    requires Arrives(log, first, next, arrivals)
    decreases |arrivals|
  {
    if arrivals == [] then []
    else match arrivals[0]
         case Event => [MessageCreated(log[next])] + Actions(log, first, next + 1, arrivals[1..])
         case Older(earlier, cursor) =>
           [OlderLoaded(Page(log[earlier..first], cursor))] + Actions(log, earlier, next, arrivals[1..])
  }

  /** Where the shown stretch begins, how far the events have come and which cursor is left after the arrivals. */
  function Reach(first: nat, next: nat, cursor: Option<string>, arrivals: seq<Arrival>): (nat, nat, Option<string>)
    decreases |arrivals|
  {
    if arrivals == [] then (first, next, cursor)
    else match arrivals[0]
         case Event => Reach(first, next + 1, cursor, arrivals[1..])
         case Older(earlier, older) => Reach(earlier, next, older, arrivals[1..])
  }

  function Later(a: nat, b: nat): nat { if a <= b then b else a }

  /** Events and older pages, interleaved anywhere, keep the shown stretch contiguous and move both its ends. */
  lemma {:induction false} ArrivalsExtend(log: seq<Message>, first: nat, end: nat, next: nat, cursor: Option<string>, arrivals: seq<Arrival>)
    requires DistinctIds(log) && first <= next <= end <= |log| && Arrives(log, first, next, arrivals)
    ensures var (first', next', cursor') := Reach(first, next, cursor, arrivals);
      && first' <= first && next <= next' <= |log|
      && Run(Ready(log[first..end], cursor), Actions(log, first, next, arrivals)) == Ready(log[first'..Later(end, next')], cursor')
    decreases |arrivals|
  {
    hide Reduce;
    if arrivals != [] {
      var actions := Actions(log, first, next, arrivals);
      match arrivals[0] {
        case Event =>
          EventExtends(log, first, end, next, cursor);
          assert actions[1..] == Actions(log, first, next + 1, arrivals[1..]);
          ArrivalsExtend(log, first, Later(end, next + 1), next + 1, cursor, arrivals[1..]);
        case Older(earlier, older) =>
          OlderPageIsContiguous(log, earlier, first, end, cursor, older);
          assert actions[1..] == Actions(log, earlier, next, arrivals[1..]);
          ArrivalsExtend(log, earlier, end, next, older, arrivals[1..]);
      }
    }
  }

  lemma EventExtends(log: seq<Message>, first: nat, end: nat, next: nat, cursor: Option<string>)
    requires DistinctIds(log) && first <= next <= end <= |log| && next < |log|
    ensures Reduce(Ready(log[first..end], cursor), MessageCreated(log[next])) == Ready(log[first..Later(end, next + 1)], cursor)
  {
    hide AppendMessage;
    if next < end { OverlapAppends(log, first, end, next); } else { NextAppends(log, first, end); }
  }

  /**
   The whole page: events, the history page log[a..b) anywhere among them, and then further events and a chain of
   older pages in any interleaving show one contiguous stretch of the log, each message once.
   */
  lemma PageIsContiguous(log: seq<Message>, a: nat, b: nat, c: nat, k: nat, cursor: Option<string>, arrivals: seq<Arrival>)
    requires DistinctIds(log) && a <= c <= b <= |log| && c <= k <= |log| && Arrives(log, a, k, arrivals)
    ensures var (first, next, last) := Reach(a, k, cursor, arrivals);
      && first <= a && k <= next <= |log|
      && Run(LoadingHistory([]), Events(log[c..k]) + [HistoryLoaded(Page(log[a..b], cursor))] + Actions(log, a, k, arrivals))
         == Ready(log[first..Later(b, next)], last)
      && DistinctIds(log[first..Later(b, next)])
  {
    hide Run, AppendAll, Reduce, Actions, Arrives;
    var opening := Events(log[c..k]) + [HistoryLoaded(Page(log[a..b], cursor))];
    NothingIsLost(log, a, b, c, k, k, cursor);
    assert Events(log[k..k]) == [] && opening + Events(log[k..k]) == opening;
    RunConcat(LoadingHistory([]), opening, Actions(log, a, k, arrivals));
    ArrivalsExtend(log, a, Later(b, k), k, cursor, arrivals);
    var (first, next, last) := Reach(a, k, cursor, arrivals);
    DistinctSlice(log, first, Later(b, next));
  }

  lemma DistinctSlice(log: seq<Message>, i: nat, j: nat)
    requires DistinctIds(log) && i <= j <= |log|
    ensures DistinctIds(log[i..j])
  {
  }

  // ---------- What every run keeps ----------

  predicate DistinctPages(actions: seq<Action>) {
    forall i | 0 <= i < |actions| :: actions[i].HistoryLoaded? || actions[i].OlderLoaded? ==> DistinctIds(actions[i].page.messages)
  }

  predicate NoDuplicates(s: State) {
    (s.Ready? ==> DistinctIds(s.messages)) && (s.LoadingHistory? ==> DistinctIds(s.buffered))
  }

  lemma AppendKeepsDistinct(messages: seq<Message>, m: Message)
    requires DistinctIds(messages) && AppendMessage(messages, m).Some?
    ensures DistinctIds(AppendMessage(messages, m).value)
  {
  }

  lemma {:induction false} AppendAllKeepsDistinct(messages: Option<seq<Message>>, stream: seq<Message>)
    requires messages.Some? ==> DistinctIds(messages.value)
    ensures AppendAll(messages, stream).Some? ==> DistinctIds(AppendAll(messages, stream).value)
    decreases |stream|
  {
    if stream != [] && messages.Some? {
      var next := AppendMessage(messages.value, stream[0]);
      if next.Some? { AppendKeepsDistinct(messages.value, stream[0]); }
      AppendAllKeepsDistinct(next, stream[1..]);
    }
  }

  /** No run shows a message twice, as long as no single page does. */
  lemma {:induction false} RunKeepsDistinct(s: State, actions: seq<Action>)
    requires NoDuplicates(s) && DistinctPages(actions)
    ensures NoDuplicates(Run(s, actions))
    decreases |actions|
  {
    if actions != [] {
      match actions[0] {
        case HistoryLoaded(page) =>
          if s.LoadingHistory? { AppendAllKeepsDistinct(Some(page.messages), s.buffered); }
        case _ =>
      }
      assert forall i | 0 <= i < |actions[1..]| :: actions[1..][i] == actions[i + 1];
      RunKeepsDistinct(Reduce(s, actions[0]), actions[1..]);
    }
  }

  // ---------- Which sessions show a page ----------

  /** Every event is, to the letter, the first message with its ID among the page and the events. */
  ghost predicate Agrees(page: seq<Message>, stream: seq<Message>) {
    forall i, k | 0 <= i < |stream| && FirstWith(page + stream, stream[i].id, k) :: (page + stream)[k] == stream[i]
  }

  lemma AgreesIsFound(page: seq<Message>, stream: seq<Message>)
    ensures Agrees(page, stream) <==> forall m | m in stream :: Find(page + stream, m.id) == Some(m)
  {
    forall m | m in stream ensures Find(page + stream, m.id).Some? {
      var i :| 0 <= i < |stream| && stream[i] == m;
      assert (page + stream)[|page| + i] in page + stream;
    }
  }

  /** A merge goes through exactly if every event agrees, and it leaves exactly the messages of both sides. */
  lemma {:induction false} MergedExactly(page: seq<Message>, stream: seq<Message>)
    ensures AppendAll(Some(page), stream).Some? <==> forall m | m in stream :: Find(page + stream, m.id) == Some(m)
    ensures AppendAll(Some(page), stream).Some? ==> forall m :: m in AppendAll(Some(page), stream).value <==> m in page + stream
    decreases |stream|
  {
    hide FirstWith;
    if stream == [] {
      assert page + stream == page;
    } else {
      var m, rest := stream[0], stream[1..];
      assert stream == [m] + rest && page + stream == page + [m] + rest;
      FindInConcat(page, stream, m.id);
      match Find(page, m.id) {
        case None =>
          MergedExactly(page + [m], rest);
        case Some(known) =>
          ConflictStays(rest);
          MergedExactly(page, rest);
          forall x: Message ensures Find(page + stream, x.id) == Find(page + rest, x.id) {
            FindInConcat(page, stream, x.id);
            FindInConcat(page, rest, x.id);
          }
      }
    }
  }

  /**
   A connected session shows the history page and the events exactly if they agree, and then all of them and nothing
   else. A reused ID with any other content ends it.
   */
  lemma ReadyExactly(s: State, page: Page, before: seq<Message>, after: seq<Message>)
    ensures var final := Run(s, [Connect, Opened] + (Events(before) + [HistoryLoaded(page)] + Events(after)));
      if Agrees(page.messages, before + after) then
        final.Ready? && final.olderCursor == page.olderCursor && forall m :: m in final.messages <==> m in page.messages + (before + after)
      else
        final == Error(Contract)
  {
    Opening(s);
    RunConcat(s, [Connect, Opened], Events(before) + [HistoryLoaded(page)] + Events(after));
    HistoryPositionIsIrrelevant(page, before, after);
    MergedExactly(page.messages, before + after);
    AgreesIsFound(page.messages, before + after);
    hide Run, AppendAll, Agrees, Find;
  }

  /** A session loads the history once it is connected and opened, and an event before that ends it. */
  lemma Opening(s: State)
    ensures Run(s, [Connect, Opened]) == LoadingHistory([])
    ensures forall m :: Run(s, [Connect, MessageCreated(m)]) == Error(Contract)
  {
    assert [Connect, Opened][1..] == [Opened];
    assert Run(Connecting, [Opened]) == Run(LoadingHistory([]), [Opened][1..]);
    forall m ensures Run(s, [Connect, MessageCreated(m)]) == Error(Contract) {
      assert [Connect, MessageCreated(m)][1..] == [MessageCreated(m)];
      assert Run(Connecting, [MessageCreated(m)]) == Run(Error(Contract), [MessageCreated(m)][1..]);
    }
  }

  /** A reported failure is shown whatever came before, and until the next connection nothing but a failure replaces it. */
  lemma {:induction false} FailureStays(s: State, text: string, actions: seq<Action>)
    requires forall a | a in actions :: !a.Connect? && !a.Failed?
    ensures Run(s, [Failed(text)] + actions) == Error(Reported(text))
    decreases |actions|
  {
    assert ([Failed(text)] + actions)[1..] == actions;
    if actions != [] {
      var again := Run(Error(Reported(text)), actions);
      assert again == Run(Reduce(Error(Reported(text)), actions[0]), actions[1..]);
      FailureStays(s, text, actions[1..]);
      assert ([Failed(text)] + actions[1..])[1..] == actions[1..];
    }
  }

  /** An older page that repeats an ID is refused, and any other one goes in front as it is. */
  lemma OlderPageExactly(shown: seq<Message>, cursor: Option<string>, page: Page)
    ensures var next := Reduce(Ready(shown, cursor), OlderLoaded(page));
      if forall i, j | 0 <= i < |page.messages| && 0 <= j < |shown| :: page.messages[i].id != shown[j].id then
        next == Ready(page.messages + shown, page.olderCursor)
      else
        next == Error(OlderConflict)
  {
    if i, j :| 0 <= i < |page.messages| && 0 <= j < |shown| && page.messages[i].id == shown[j].id {
      assert page.messages[i] in page.messages && shown[j] in shown;
    }
  }
}
