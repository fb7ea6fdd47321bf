/**
 * The panel's log subscriptions, one per bot: lines are buffered, the oldest dropped when the buffer is
 * full, and handed over in batches at every tick.
 */
module LogHub {

  import opened Options
  import opened Proto

  const BATCH_MAX := 500
  const BUFFER_MAX := 10000

  type Line = string

  /** A subscription; the token stands for its identity, which no other one shares. */
  datatype Sub = Sub(token: nat, lines: seq<Line>)

  datatype Hub = Hub(subs: map<BotId, Sub>, nextToken: nat)

  datatype LogBatch = LogBatch(bot: BotId, lines: seq<Line>)

  datatype Op =
    | Subscribe(bot: BotId)
    | Add(bot: BotId, token: nat, line: Line)
    | Unsubscribe(bot: BotId)
    | CloseAll
    | Flush

  function Newest(lines: seq<Line>, max: nat): (r: seq<Line>)
    ensures |r| == (if |lines| < max then |lines| else max)
  {
    if |lines| <= max then lines else lines[|lines| - max..]
  }

  function Step(h: Hub, op: Op): Hub {
    match op
    case Subscribe(b) => Hub(h.subs[b := Sub(h.nextToken, [])], h.nextToken + 1)
    case Add(b, token, line) =>
      if b in h.subs && h.subs[b].token == token
      then h.(subs := h.subs[b := Sub(token, Newest(h.subs[b].lines + [line], BUFFER_MAX))])
      else h
    case Unsubscribe(b) => h.(subs := h.subs - {b})
    case CloseAll => h.(subs := map[])
    case Flush => h.(subs := map b | b in h.subs :: h.subs[b].(lines := []))
  }

  function Buffered(h: Hub, b: BotId): seq<Line> {
    if b in h.subs then h.subs[b].lines else []
  }

  /** The lines a step hands over for a bot. */
  function HandedBy(h: Hub, op: Op, b: BotId): seq<Line> {
    if op.Flush? then Buffered(h, b) else []
  }

  function LinesOf(out: seq<LogBatch>, b: BotId): seq<Line> {
    if out == [] then []
    else LinesOf(out[..|out| - 1], b) + if out[|out| - 1].bot == b then out[|out| - 1].lines else []
  }

  class LogHub {
    var subs: map<BotId, Sub>
    var nextToken: nat

    ghost function View(): Hub
      reads this
    {
      Hub(subs, nextToken)
    }

    constructor ()
      ensures View() == Hub(map[], 0)
    {
      subs, nextToken := map[], 0;
    }

    method Subscribe(bot: BotId) returns (token: nat)
      modifies this
      ensures View() == Step(old(View()), Op.Subscribe(bot))
      ensures Buffered(View(), bot) == [] && bot in subs && subs[bot].token == token
    {
      token := nextToken;
      nextToken := nextToken + 1;
      subs := subs[bot := Sub(token, [])];
    }

    method Add(bot: BotId, token: nat, line: Line)
      modifies this
      ensures View() == Step(old(View()), Op.Add(bot, token, line))
    {
      if bot !in subs || subs[bot].token != token { return; }
      var lines := subs[bot].lines + [line];
      var n := |lines|;
      if n > BUFFER_MAX {
        lines := lines[n - BUFFER_MAX..];
      }
      subs := subs[bot := Sub(token, lines)];
    }

    method Unsubscribe(bot: BotId)
      modifies this
      ensures View() == Step(old(View()), Op.Unsubscribe(bot))
    {
      if bot in subs {
        subs := subs - {bot};
      } else {
        assert subs - {bot} == subs;
      }
    }

    method CloseAll()
      modifies this
      ensures View() == Step(old(View()), Op.CloseAll)
    {
      subs := map[];
    }

    /** Cuts one buffer into batches. */
    method Drain(bot: BotId, lines: seq<Line>, before: seq<LogBatch>) returns (out: seq<LogBatch>)
      requires SmallBatches(before)
      ensures Extends(out, before, bot, lines) && SmallBatches(out)
    {
      out := before;
      var left := lines;
      ghost var done: seq<Line> := [];
      while |left| > 0
        invariant done + left == lines
        invariant Extends(out, before, bot, done) && SmallBatches(out)
        decreases |left|
      {
        hide Extends;
        var n := if |left| < BATCH_MAX then |left| else BATCH_MAX;
        BatchExtends(out, before, bot, done, left[..n]);
        out := out + [LogBatch(bot, left[..n])];
        done := done + left[..n];
        left := left[n..];
      }
      assert done == lines;
    }

    /** One tick, over the subscriptions in whatever order: every buffer is handed over whole, in order, in small batches. */
    method Flush() returns (out: seq<LogBatch>)
      modifies this
      ensures View() == Step(old(View()), Op.Flush)
      ensures forall b: BotId :: LinesOf(out, b) == HandedBy(old(View()), Op.Flush, b)
      ensures SmallBatches(out)
    {
      hide Flushing, LinesOf, SmallBatches, Extends, Step, HandedBy;
      out := [];
      var ids := subs.Keys;
      ghost var was := View();
      FlushingBegun(subs);
      while ids != {}
        invariant nextToken == was.nextToken
        invariant Flushing(subs, was.subs, ids, out) && SmallBatches(out)
        decreases |ids|
      {
        var id :| id in ids;
        FlushingAt(subs, was.subs, ids, out, id);
        ghost var before := out;
        out := Drain(id, subs[id].lines, out);
        FlushingStep(subs, was.subs, ids, before, id, out);
        subs := subs[id := subs[id].(lines := [])];
        ids := ids - {id};
      }
      FlushingDone(subs, was, out);
    }
  }

  /** Batches are never empty, and never large. */
  predicate SmallBatches(out: seq<LogBatch>) { forall k :: 0 <= k < |out| ==> 1 <= |out[k].lines| <= 500 }

  /** These lines, and nothing else, were added, all for this bot. */
  ghost predicate Extends(out: seq<LogBatch>, before: seq<LogBatch>, bot: BotId, lines: seq<Line>) {
    forall b: BotId :: LinesOf(out, b) == LinesOf(before, b) + if b == bot then lines else []
  }

  lemma BatchExtends(out: seq<LogBatch>, before: seq<LogBatch>, bot: BotId, done: seq<Line>, lines: seq<Line>)
    requires Extends(out, before, bot, done)
    ensures Extends(out + [LogBatch(bot, lines)], before, bot, done + lines)
  {
    var more := out + [LogBatch(bot, lines)];
    assert more[..|more| - 1] == out;
    forall b: BotId
      ensures LinesOf(more, b) == LinesOf(before, b) + if b == bot then done + lines else []
    {
      assert LinesOf(before, bot) + done + lines == LinesOf(before, bot) + (done + lines);
    }
  }

  /** A flush under way: `ids` are the buffers still to hand over. */
  ghost predicate Flushing(subs: map<BotId, Sub>, was: map<BotId, Sub>, ids: set<BotId>, out: seq<LogBatch>) {
    && ids <= was.Keys == subs.Keys
    && (forall b :: b in subs ==> subs[b] == if b in ids then was[b] else was[b].(lines := []))
    && (forall b: BotId :: LinesOf(out, b) == if b in was && b !in ids then was[b].lines else [])
  }

  lemma FlushingBegun(subs: map<BotId, Sub>)
    ensures Flushing(subs, subs, subs.Keys, []) && SmallBatches([])
  {
  }

  lemma FlushingAt(subs: map<BotId, Sub>, was: map<BotId, Sub>, ids: set<BotId>, out: seq<LogBatch>, id: BotId)
    requires Flushing(subs, was, ids, out) && id in ids
    ensures id in subs && id in was && subs[id] == was[id]
  {
  }

  lemma FlushingStep(subs: map<BotId, Sub>, was: map<BotId, Sub>, ids: set<BotId>, before: seq<LogBatch>, id: BotId, out: seq<LogBatch>)
    requires Flushing(subs, was, ids, before) && id in ids && Extends(out, before, id, subs[id].lines)
    ensures Flushing(subs[id := subs[id].(lines := [])], was, ids - {id}, out)
  {
    hide LinesOf;
    forall b: BotId
      ensures LinesOf(out, b) == if b in was && b !in ids - {id} then was[b].lines else []
    {
      assert LinesOf(before, b) == if b in was && b !in ids then was[b].lines else [];
      assert LinesOf(out, b) == LinesOf(before, b) + if b == id then subs[id].lines else [];
    }
  }

  lemma FlushingDone(subs: map<BotId, Sub>, was: Hub, out: seq<LogBatch>)
    requires Flushing(subs, was.subs, {}, out)
    ensures Hub(subs, was.nextToken) == Step(was, Op.Flush)
    ensures forall b: BotId :: LinesOf(out, b) == HandedBy(was, Op.Flush, b)
  {
    hide LinesOf;
  }

  // ---------- Over every run ----------

  function Ran(h: Hub, ops: seq<Op>): Hub
    decreases |ops|
  {
    if ops == [] then h else Ran(Step(h, ops[0]), ops[1..])
  }

  /** Everything a run hands over for one bot, in order. */
  function Handed(h: Hub, ops: seq<Op>, b: BotId): seq<Line>
    decreases |ops|
  {
    if ops == [] then [] else HandedBy(h, ops[0], b) + Handed(Step(h, ops[0]), ops[1..], b)
  }

  /** What happens to one bot's buffer: a line comes in, the buffer is handed over, or the subscription ends. */
  datatype Happening = Came(line: Line) | HandOver | End

  /** What a step does to one bot's current subscription; a line for a subscription that was replaced is ignored. */
  function HappenedBy(h: Hub, op: Op, b: BotId): seq<Happening> {
    match op
    case Subscribe(b') => if b' == b then [End] else []
    case Add(b', token, line) => if b' == b && b in h.subs && h.subs[b].token == token then [Came(line)] else []
    case Unsubscribe(b') => if b' == b then [End] else []
    case CloseAll => [End]
    case Flush => [HandOver]
  }

  function Happened(h: Hub, ops: seq<Op>, b: BotId): seq<Happening>
    decreases |ops|
  {
    if ops == [] then [] else HappenedBy(h, ops[0], b) + Happened(Step(h, ops[0]), ops[1..], b)
  }

  /** How many lines come in before the next hand-over; none if there is no hand-over, or the subscription ends first. */
  function NewerBeforeHandOver(rest: seq<Happening>): Option<nat> {
    if rest == [] || rest[0].End? then None
    else if rest[0].HandOver? then Some(0)
    else
      var n := NewerBeforeHandOver(rest[1..]);
      if n.Some? then Some(n.value + 1) else None
  }

  /** The lines that are handed over: those with a hand-over to come and fewer than 10000 newer lines before it. */
  function Survivors(hs: seq<Happening>): seq<Line> {
    if hs == [] then []
    else
      var n := NewerBeforeHandOver(hs[1..]);
      (if hs[0].Came? && n.Some? && n.value < 10000 then [hs[0].line] else []) + Survivors(hs[1..])
  }

  /** Of the lines buffered already, those that are. */
  function BufferSurvivors(buffer: seq<Line>, hs: seq<Happening>): seq<Line> {
    var n := NewerBeforeHandOver(hs);
    if n.None? || n.value >= 10000 then [] else Newest(buffer, 10000 - n.value)
  }

  lemma BufferStep(buffer: seq<Line>, line: Line, hs: seq<Happening>)
    requires |buffer| <= BUFFER_MAX
    ensures BufferSurvivors(Newest(buffer + [line], BUFFER_MAX), hs) + Survivors(hs)
         == BufferSurvivors(buffer, [Came(line)] + hs) + Survivors([Came(line)] + hs)
  {
    hide Survivors;
    var all := [Came(line)] + hs;
    assert all[1..] == hs;
    var n := NewerBeforeHandOver(hs);
    var kept := BufferSurvivors(buffer, all);
    assert Survivors(all) == (if n.Some? && n.value < BUFFER_MAX then [line] else []) + Survivors(hs) by { SurvivorsStep(line, hs); }
    if n.Some? && n.value < BUFFER_MAX {
      var now := BufferSurvivors(Newest(buffer + [line], BUFFER_MAX), hs);
      assert now == kept + [line];
      assert kept + [line] + Survivors(hs) == kept + ([line] + Survivors(hs));
    }
  }

  lemma SurvivorsStep(line: Line, hs: seq<Happening>)
    ensures var n := NewerBeforeHandOver(hs);
            Survivors([Came(line)] + hs) == (if n.Some? && n.value < BUFFER_MAX then [line] else []) + Survivors(hs)
  {
    assert ([Came(line)] + hs)[1..] == hs;
  }

  predicate BuffersBounded(h: Hub) {
    forall b :: b in h.subs ==> |h.subs[b].lines| <= 10000
  }

  /** The buffers never hold more than 10000 lines. */
  lemma {:induction false} BuffersStayBounded(h: Hub, ops: seq<Op>)
    requires BuffersBounded(h)
    ensures BuffersBounded(Ran(h, ops))
    decreases |ops|
  {
    if ops != [] { BuffersStayBounded(Step(h, ops[0]), ops[1..]); }
  }

  /**
   * Over every run of the hub, what is handed over for a bot is its lines in the order they came, each at
   * most once, and all of them but those of a subscription that ended (or still waits), and those that
   * 10000 newer lines came in behind before the tick.
   */
  lemma {:induction false} HandedAreSurvivors(h: Hub, ops: seq<Op>, b: BotId)
    requires BuffersBounded(h)
    ensures Handed(h, ops, b) == BufferSurvivors(Buffered(h, b), Happened(h, ops, b)) + Survivors(Happened(h, ops, b))
    decreases |ops|
  {
    if ops != [] {
      HandOverStep(h, ops[0], Happened(Step(h, ops[0]), ops[1..], b), b);
      hide BuffersBounded, Step, HandedBy, HappenedBy, Survivors, BufferSurvivors, Buffered;
      HandedAreSurvivors(Step(h, ops[0]), ops[1..], b);
    }
  }

  /** One step, whatever is to come after it. */
  lemma HandOverStep(h: Hub, op: Op, hs: seq<Happening>, b: BotId)
    requires BuffersBounded(h)
    ensures BuffersBounded(Step(h, op))
    ensures HandedBy(h, op, b) + (BufferSurvivors(Buffered(Step(h, op), b), hs) + Survivors(hs))
         == BufferSurvivors(Buffered(h, b), HappenedBy(h, op, b) + hs) + Survivors(HappenedBy(h, op, b) + hs)
  {
    hide Survivors, NewerBeforeHandOver;
    assert [] + hs == hs;
    match op
    case Add(b', token, line) =>
      if b' == b && b in h.subs && h.subs[b].token == token { BufferStep(Buffered(h, b), line, hs); }
    case Flush => EndStep(HandOver, hs);
    case CloseAll => EndStep(End, hs);
    case Subscribe(_) => EndStep(End, hs);
    case Unsubscribe(_) => EndStep(End, hs);
  }

  lemma EndStep(h: Happening, hs: seq<Happening>)
    requires !h.Came?
    ensures NewerBeforeHandOver([h] + hs) == (if h.HandOver? then Some(0) else None)
    ensures Survivors([h] + hs) == Survivors(hs)
  {
    assert ([h] + hs)[1..] == hs;
  }

  /** From no subscriptions on, exactly the survivors are handed over. */
  lemma OnlySurvivorsAreHanded(ops: seq<Op>, b: BotId)
    ensures Handed(Hub(map[], 0), ops, b) == Survivors(Happened(Hub(map[], 0), ops, b))
  {
    HandedAreSurvivors(Hub(map[], 0), ops, b);
  }
}
