/**
  The stream of apply items between a node and its state machine, as a walk along
  a plain log: each command is the next entry, each snapshot jumps forward to its
  boundary and denotes the state there.
*/
module ApplyStream {
  import opened Types
  import opened Consensus
  import opened App
  import opened SnapshotCodec
  import opened Cluster
  import opened LogRefinement

  /** `data` is a snapshot of the state after applying `log` from the start. */
  ghost predicate Denotes(cfg: Config, data: Bytes, log: seq<LogEntry>) {
    IsSnapshotOf(data, Replay(cfg.decode, log))
  }

  function ItemEnd(item: Apply): LogIndex {
    match item
    case ApplyCommand(e) => e.index
    case ApplySnapshot(s) => s.lastIncludedIndex
  }

  /** `item` continues the stream at position `pos`: the next entry, or a snapshot further on. */
  ghost predicate ItemOk(cfg: Config, log: seq<LogEntry>, pos: LogIndex, item: Apply) {
    match item
    case ApplyCommand(e) => e.index == pos + 1 && pos < |log| && log[pos] == LogEntry(e.term, e.command)
    case ApplySnapshot(s) => pos < s.lastIncludedIndex <= |log| && Denotes(cfg, s.data, log[..s.lastIncludedIndex])
  }

  /** The position reached before item `k` of a stream that starts at `pos`. */
  function PositionAt(pos: LogIndex, items: seq<Apply>, k: nat): LogIndex
    requires k <= |items|
  {
    if k == 0 then pos else ItemEnd(items[k - 1])
  }

  /** Every item is admitted at the position the items before it lead to. */
  ghost predicate Chain(ok: (LogIndex, Apply) -> bool, pos: LogIndex, items: seq<Apply>) {
    forall k {:trigger PositionAt(pos, items, k)} :: 0 <= k < |items| ==> ok(PositionAt(pos, items, k), items[k])
  }

  ghost function Along(cfg: Config, log: seq<LogEntry>): (LogIndex, Apply) -> bool {
    (pos: LogIndex, item: Apply) => ItemOk(cfg, log, pos, item)
  }

  ghost predicate StreamOk(cfg: Config, log: seq<LogEntry>, pos: LogIndex, items: seq<Apply>) {
    Chain(Along(cfg, log), pos, items)
  }

  function StreamEnd(pos: LogIndex, items: seq<Apply>): LogIndex {
    PositionAt(pos, items, |items|)
  }

  /** The application is `log` replayed to `pos`, and the channel leads on from there. */
  ghost predicate AppOk(cfg: Config, log: seq<LogEntry>, app: AppData, pos: LogIndex, channel: seq<Apply>,
      pending: Option<Snapshot>) {
    && pos <= |log|
    && app == Replay(cfg.decode, log[..pos])
    && StreamOk(cfg, log, pos, channel)
    && match pending
       case None => StreamEnd(pos, channel) == |log|
       case Some(s) => StreamEnd(pos, channel) < s.lastIncludedIndex == |log| && Denotes(cfg, s.data, log)
  }

  // ---- streams ----

  lemma StreamOver(cfg: Config, log: seq<LogEntry>, log': seq<LogEntry>, pos: LogIndex, items: seq<Apply>)
    requires StreamOk(cfg, log, pos, items) && log <= log' && pos <= |log|
    ensures StreamOk(cfg, log', pos, items) && StreamEnd(pos, items) <= |log|
  {
    forall k | 0 <= k < |items|
      ensures ItemOk(cfg, log', PositionAt(pos, items, k), items[k]) && ItemEnd(items[k]) <= |log|
    {
      assert ItemOk(cfg, log, PositionAt(pos, items, k), items[k]);
      assert log[..ItemEnd(items[k])] == log'[..ItemEnd(items[k])];
    }
  }

  lemma ChainConcat(ok: (LogIndex, Apply) -> bool, pos: LogIndex, a: seq<Apply>, b: seq<Apply>)
    requires Chain(ok, pos, a) && Chain(ok, StreamEnd(pos, a), b)
    ensures Chain(ok, pos, a + b) && StreamEnd(pos, a + b) == StreamEnd(StreamEnd(pos, a), b)
  {
    forall k | 0 <= k < |a + b|
      ensures ok(PositionAt(pos, a + b, k), (a + b)[k])
    {
      if k < |a| {
        assert PositionAt(pos, a + b, k) == PositionAt(pos, a, k);
      } else {
        assert PositionAt(pos, a + b, k) == PositionAt(StreamEnd(pos, a), b, k - |a|);
      }
    }
  }

  lemma ChainRest(ok: (LogIndex, Apply) -> bool, pos: LogIndex, items: seq<Apply>)
    requires items != [] && Chain(ok, pos, items)
    ensures ok(pos, items[0]) && Chain(ok, ItemEnd(items[0]), items[1..])
    ensures StreamEnd(ItemEnd(items[0]), items[1..]) == StreamEnd(pos, items)
  {
    assert PositionAt(pos, items, 0) == pos;
    var rest := items[1..];
    forall k | 0 <= k < |rest|
      ensures ok(PositionAt(ItemEnd(items[0]), rest, k), rest[k])
    {
      assert PositionAt(ItemEnd(items[0]), rest, k) == PositionAt(pos, items, k + 1);
    }
  }

  /** Draining emits exactly the entries between the two cursors, in order; no lookup fails. */
  lemma {:induction false} CommandsAre(log: Log, full: seq<LogEntry>, lo: LogIndex, hi: LogIndex)
    requires Represents(log, full) && log.snapshotIndex <= lo <= hi <= |full|
    ensures |CommandsBetween(log, lo, hi)| == hi - lo
    ensures forall k :: 0 <= k < hi - lo ==>
              CommandsBetween(log, lo, hi)[k] == ApplyCommand(Applied(lo + k + 1, full[lo + k].term, full[lo + k].command))
    decreases hi - lo
  {
    if lo < hi {
      AccessorsAgree(log, full, lo + 1);
      CommandsAre(log, full, lo + 1, hi);
    }
  }

  lemma CommandsStream(cfg: Config, log: Log, full: seq<LogEntry>, lo: LogIndex, hi: LogIndex)
    requires Represents(log, full) && log.snapshotIndex <= lo <= hi <= |full|
    ensures StreamOk(cfg, full[..hi], lo, CommandsBetween(log, lo, hi))
    ensures StreamEnd(lo, CommandsBetween(log, lo, hi)) == hi
  {
    CommandsAre(log, full, lo, hi);
    var items := CommandsBetween(log, lo, hi);
    forall k | 0 <= k <= |items|
      ensures PositionAt(lo, items, k) == lo + k
    {
    }
    forall k | 0 <= k < |items|
      ensures ItemOk(cfg, full[..hi], PositionAt(lo, items, k), items[k])
    {
    }
  }

  // ---- what each step does to the application and its channel ----

  lemma DrainApp(cfg: Config, n: Node, full: seq<LogEntry>, app: AppData, pos: LogIndex, channel: seq<Apply>)
    requires Represents(n.log, full) && n.log.snapshotIndex <= n.lastApplied <= n.commitIndex <= |full|
    requires AppOk(cfg, full[..n.lastApplied], app, pos, channel, n.pendingSnapshot)
    ensures AppOk(cfg, full[..n.commitIndex], app, pos, channel + n.TakeApplies().1, None)
  {
    var lo, hi := n.lastApplied, n.commitIndex;
    var items := CommandsBetween(n.log, lo, hi);
    var head := if n.pendingSnapshot.Some? then [ApplySnapshot(n.pendingSnapshot.value)] else [];
    var log := full[..hi];
    assert full[..lo] <= log && full[..lo][..pos] == log[..pos];
    StreamOver(cfg, full[..lo], log, pos, channel);
    CommandsStream(cfg, n.log, full, lo, hi);
    HeadStream(cfg, full[..lo], log, StreamEnd(pos, channel), n.pendingSnapshot);
    var ok := Along(cfg, log);
    ChainConcat(ok, StreamEnd(pos, channel), head, items);
    ChainConcat(ok, pos, channel, head + items);
  }

  lemma HeadStream(cfg: Config, log: seq<LogEntry>, log': seq<LogEntry>, pos: LogIndex, pending: Option<Snapshot>)
    requires log <= log'
    requires match pending
             case None => pos == |log|
             case Some(s) => pos < s.lastIncludedIndex == |log| && Denotes(cfg, s.data, log)
    ensures var head := if pending.Some? then [ApplySnapshot(pending.value)] else [];
            StreamOk(cfg, log', pos, head) && StreamEnd(pos, head) == |log|
  {
    if pending.Some? {
      assert log'[..pending.value.lastIncludedIndex] == log;
    }
  }

  /** Applying one item that continues the replay of `log` at `pos` replays it to the item's end. */
  lemma ItemReplays(cfg: Config, log: seq<LogEntry>, x: Host, item: Apply)
    requires x.pos <= |log| && x.app == Replay(cfg.decode, log[..x.pos]) && ItemOk(cfg, log, x.pos, item)
    ensures ItemEnd(item) <= |log|
    ensures ApplyItem(cfg, x, item) == x.(app := Replay(cfg.decode, log[..ItemEnd(item)]), pos := ItemEnd(item))
  {
    match item
    case ApplyCommand(e) =>
      assert log[..x.pos + 1][..x.pos] == log[..x.pos];
    case ApplySnapshot(s) =>
      ReplayKeepsDirectory(cfg.decode, log[..x.pos]);
      ReplayKeepsDirectory(cfg.decode, log[..s.lastIncludedIndex]);
      SnapshotRestores(s.data, Replay(cfg.decode, log[..s.lastIncludedIndex]), x.app);
  }

  lemma StreamRest(cfg: Config, log: seq<LogEntry>, pos: LogIndex, items: seq<Apply>)
    requires items != [] && StreamOk(cfg, log, pos, items)
    ensures ItemOk(cfg, log, pos, items[0]) && StreamOk(cfg, log, ItemEnd(items[0]), items[1..])
    ensures StreamEnd(ItemEnd(items[0]), items[1..]) == StreamEnd(pos, items)
  {
    ChainRest(Along(cfg, log), pos, items);
  }

  /** One round of the apply loop keeps the application on the log. */
  lemma ConsumeApp(cfg: Config, log: seq<LogEntry>, x: Host)
    requires x.channel != [] && AppOk(cfg, log, x.app, x.pos, x.channel, x.node.pendingSnapshot)
    ensures var x' := ApplyItem(cfg, x.(channel := x.channel[1..]), x.channel[0]);
            AppOk(cfg, log, x'.app, x'.pos, x'.channel, x'.node.pendingSnapshot)
  {
    StreamRest(cfg, log, x.pos, x.channel);
    ItemReplays(cfg, log, x.(channel := x.channel[1..]), x.channel[0]);
  }

  lemma InstallApp(cfg: Config, log: seq<LogEntry>, log': seq<LogEntry>, app: AppData, pos: LogIndex,
      channel: seq<Apply>, pending: Option<Snapshot>, s: Snapshot)
    requires AppOk(cfg, log, app, pos, channel, pending) && log < log'
    requires s.lastIncludedIndex == |log'| && Denotes(cfg, s.data, log')
    ensures AppOk(cfg, log', app, pos, channel, Some(s))
  {
    assert log[..pos] == log'[..pos];
    StreamOver(cfg, log, log', pos, channel);
  }
}
