/**
 * The event stream of one run (apps/api/src/app.ts, GET /api/searches/:id/events): the cursor check,
 * the polling loop with a settler and a retention job running beside it, and a client that
 * disconnects and reconnects at any point.
 */
module EventStream {
  import opened Prelude
  import opened Sightings
  import opened SearchPipeline
  import opened PipelineSafety
  import Runs

  const PAGE: nat := 50

  datatype LogEvent = LogEvent(sequence: nat, kind: EventKind)

  /** One database read: the retained events, the run row, the session check, or a failed query. */
  datatype View = View(log: seq<LogEvent>, run: Option<RunStatus>, session: bool, fails: bool)

  datatype Frame = RetryHint | Reset | Progress(event: LogEvent) | Settled | SessionExpired | Unavailable | Heartbeat

  predicate Ascending(log: seq<LogEvent>) {
    && (forall i, j :: 0 <= i < j < |log| ==> log[i].sequence < log[j].sequence)
    && (forall i :: 0 <= i < |log| ==> 0 < log[i].sequence)
  }

  function Kinds(log: seq<LogEvent>): seq<EventKind> {
    seq(|log|, i requires 0 <= i < |log| => log[i].kind)
  }

  predicate Ends(kind: EventKind) {
    kind in {SearchCompleted, SearchPartial, SearchFailed, SearchCancelled}
  }

  /** How many events of the log are at or before the cursor. */
  function Position(log: seq<LogEvent>, cursor: nat): (n: nat)
    ensures n <= |log|
  {
    if log == [] || log[|log| - 1].sequence <= cursor then |log| else Position(log[..|log| - 1], cursor)
  }

  /** `sequence > cursor ORDER BY sequence`. */
  function After(log: seq<LogEvent>, cursor: nat): seq<LogEvent> {
    log[Position(log, cursor)..]
  }

  lemma {:induction false} PositionSplits(log: seq<LogEvent>, cursor: nat)
    requires Ascending(log)
    ensures forall i :: 0 <= i < |log| ==> (i < Position(log, cursor) <==> log[i].sequence <= cursor)
    decreases |log|
  {
    if log != [] && log[|log| - 1].sequence > cursor {
      PositionSplits(log[..|log| - 1], cursor);
      assert forall i :: 0 <= i < |log| - 1 ==> log[i] == log[..|log| - 1][i];
    }
  }

  /** A shorter view of the log splits at the same place, or is delivered entirely. */
  lemma PositionInPrefix(full: seq<LogEvent>, m: nat, cursor: nat)
    requires Ascending(full) && m <= |full|
    ensures Ascending(full[..m])
    ensures Position(full[..m], cursor) == if Position(full, cursor) <= m then Position(full, cursor) else m
  {
    PositionSplits(full, cursor);
    PositionSplits(full[..m], cursor);
    var p, q := Position(full, cursor), Position(full[..m], cursor);
    if q < m { assert full[..m][q].sequence > cursor; }
    if q > 0 { assert full[..m][q - 1].sequence <= cursor; }
    if p < m { assert full[p].sequence > cursor && full[..m][p] == full[p]; }
  }

  lemma PositionOfEvent(full: seq<LogEvent>, i: nat)
    requires Ascending(full) && i < |full|
    ensures Position(full, full[i].sequence) == i + 1
  {
    PositionSplits(full, full[i].sequence);
    var p := Position(full, full[i].sequence);
    if p < |full| { assert full[p].sequence > full[i].sequence; }
  }

  /** A terminal event can only be the last one. */
  predicate TerminalLast(log: seq<LogEvent>) {
    forall i :: 0 <= i < |log| - 1 ==> !Ends(log[i].kind)
  }

  /** The log of a finished run ends with its terminal event. */
  predicate EndsWhenFinished(log: seq<LogEvent>, status: RunStatus) {
    !status.Live() ==> FinishedLog(log)
  }

  /** Nothing is ever appended to this log again. */
  predicate FinishedLog(log: seq<LogEvent>) {
    log != [] && Ends(log[|log| - 1].kind)
  }

  /** The logs the pipeline writes have the shape the stream relies on. */
  lemma PipelineLogShape(log: seq<LogEvent>, status: RunStatus)
    requires LogMatches(Kinds(log), status)
    ensures TerminalLast(log) && EndsWhenFinished(log, status)
  {
    var kinds := Kinds(log);
    assert forall i :: 0 <= i < |log| ==> log[i].kind == kinds[i];
    assert EventFor(status) in {SearchCompleted, SearchPartial, SearchFailed, SearchCancelled};
  }

  lemma {:induction false} LogOfConcat(a: seq<RunEvent>, b: seq<RunEvent>, run: RunId)
    ensures LogOf(a + b, run) == LogOf(a, run) + LogOf(b, run)
    decreases |b|
  {
    if b == [] {
      assert a + b == a;
    } else {
      LogOfConcat(a, b[..|b| - 1], run);
      assert (a + b)[..|a + b| - 1] == a + b[..|b| - 1];
    }
  }

  /** Over any run of the pipeline, the log of a run only grows and always has that shape. */
  lemma PipelineLogsGrow(ops: seq<Op>, n: nat, run: RunId)
    requires LegalOps(ops) && n <= |ops| && run in At(ops[..n]).runs
    ensures LogOf(At(ops[..n]).events, run) <= LogOf(At(ops).events, run)
    ensures run in At(ops).runs && LogMatches(LogOf(At(ops).events, run), At(ops).runs[run].status)
  {
    RunsOnlyAdvance(ops, n);
    ReachableInv(ops);
    hide CommandsMatchRuns, FinishedTogether, JobsOnlyOfResults, CommandsStay;
    var before, after := At(ops[..n]).events, At(ops).events;
    LogOfConcat(before, after[|before|..], run);
    assert before + after[|before|..] == after;
  }

  // ---------------------------------------------------------------------------------------------
  // One connection.

  function Delivered(frames: seq<Frame>): seq<LogEvent> {
    if frames == [] then []
    else Delivered(frames[..|frames| - 1]) + (if frames[|frames| - 1].Progress? then [frames[|frames| - 1].event]
                                              else [])
  }

  lemma DeliveredAppend(frames: seq<Frame>, f: Frame)
    ensures Delivered(frames + [f]) == Delivered(frames) + (if f.Progress? then [f.event] else [])
  {
    assert (frames + [f])[..|frames|] == frames;
  }

  /** What any read sees: a prefix of `full` that only grows while the run exists, nothing once it was removed. */
  ghost predicate ViewOf(v: View, full: seq<LogEvent>) {
    if v.run.None? then v.log == []
    else v.log <= full && EndsWhenFinished(v.log, v.run.value)
  }

  ghost predicate Reads(views: seq<View>, full: seq<LogEvent>) {
    && (forall i :: 0 <= i < |views| ==> ViewOf(views[i], full))
    && (forall i, j :: 0 <= i < j < |views| && views[j].run.Some? ==>
          views[i].run.Some? && |views[i].log| <= |views[j].log|)
  }

  function Opening(reset: bool): seq<Frame> {
    if reset then [RetryHint, Reset] else [RetryHint]
  }

  /** The frames start with the retry hint and, when resynchronising, one reset; `settled` can only come last. */
  ghost predicate Shaped(frames: seq<Frame>, reset: bool) {
    && Opening(reset) <= frames
    && (forall i :: |Opening(reset)| <= i < |frames| ==> !frames[i].Reset? && !frames[i].RetryHint?)
    && (forall i :: 0 <= i < |frames| - 1 ==> !frames[i].Settled?)
  }

  /** The events delivered are the first ones after the cursor, none skipped and none repeated. */
  ghost predicate Served(frames: seq<Frame>, full: seq<LogEvent>, start: nat, reset: bool) {
    Shaped(frames, reset) && Delivered(frames) <= After(full, start)
  }

  /** Where the loop stands: everything up to the cursor has been delivered, and nothing else. */
  ghost predicate Standing(frames: seq<Frame>, full: seq<LogEvent>, start: nat, reset: bool, cursor: nat) {
    var from_, to := Position(full, start), Position(full, cursor);
    && Shaped(frames, reset) && !frames[|frames| - 1].Settled?
    && from_ <= to <= |full| && Delivered(frames) == full[from_..to]
  }

  lemma StandingOpens(full: seq<LogEvent>, start: nat, reset: bool)
    ensures Standing(Opening(reset), full, start, reset, start)
  {
    assert [RetryHint, Reset][..1] == [RetryHint] && [RetryHint][..0] == [];
    assert Delivered([RetryHint]) == [];
  }

  lemma StandingServed(frames: seq<Frame>, full: seq<LogEvent>, start: nat, reset: bool, cursor: nat)
    requires Standing(frames, full, start, reset, cursor)
    ensures Served(frames, full, start, reset) && Settled !in frames
  {
  }

  lemma ShapedAppend(frames: seq<Frame>, reset: bool, f: Frame)
    requires Shaped(frames, reset) && !frames[|frames| - 1].Settled? && !f.RetryHint? && !f.Reset?
    ensures Shaped(frames + [f], reset) && (frames + [f])[|frames|] == f
  {
    assert frames[..|Opening(reset)|] == Opening(reset);
    assert (frames + [f])[..|Opening(reset)|] == Opening(reset);
  }

  lemma StandingEmits(frames: seq<Frame>, full: seq<LogEvent>, start: nat, reset: bool, cursor: nat, f: Frame)
    requires Standing(frames, full, start, reset, cursor) && !f.RetryHint? && !f.Reset? && !f.Progress?
    ensures Served(frames + [f], full, start, reset)
    ensures if f.Settled? then (frames + [f])[|frames|].Settled? else Standing(frames + [f], full, start, reset, cursor)
    ensures Settled in frames + [f] <==> f.Settled?
    ensures Position(full, cursor) == |full| ==> Delivered(frames + [f]) == After(full, start)
  {
    StandingServed(frames, full, start, reset, cursor);
    ShapedAppend(frames, reset, f);
    DeliveredAppend(frames, f);
    hide Shaped, Delivered, Position;
  }

  lemma StandingMoves(frames: seq<Frame>, full: seq<LogEvent>, start: nat, reset: bool, cursor: nat)
    requires Ascending(full) && Standing(frames, full, start, reset, cursor) && Position(full, cursor) < |full|
    ensures var next := full[Position(full, cursor)];
            Standing(frames + [Progress(next)], full, start, reset, next.sequence)
            && Position(full, next.sequence) == Position(full, cursor) + 1
  {
    var p := Position(full, cursor);
    PositionOfEvent(full, p);
    ShapedAppend(frames, reset, Progress(full[p]));
    DeliveredAppend(frames, Progress(full[p]));
    hide Shaped, Delivered, Position, Ascending;
  }

  /** Delivers one page; a terminal event ends the stream with `settled`. */
  method DeliverPage(rows: seq<LogEvent>, ghost full: seq<LogEvent>, before: seq<Frame>, from_: nat,
                     ghost start: nat, ghost reset: bool)
    returns (frames: seq<Frame>, cursor: nat, settled: bool)
    requires Ascending(full) && TerminalLast(full) && Standing(before, full, start, reset, from_)
    requires Position(full, from_) + |rows| <= |full|
             && rows == full[Position(full, from_)..Position(full, from_) + |rows|]
    ensures if settled then Served(frames, full, start, reset) && frames[|frames| - 1].Settled?
            && Delivered(frames) == After(full, start) && FinishedLog(full)
            else Standing(frames, full, start, reset, cursor)
    ensures rows == [] ==> !settled && cursor == from_ && frames == before
    ensures rows != [] ==>
              frames != [] && frames[|frames| - 1] == if settled then Settled else Progress(rows[|rows| - 1])
    ensures !settled ==> Position(full, cursor) == Position(full, from_) + |rows|
    ensures settled <==> exists j :: 0 <= j < |rows| && Ends(rows[j].kind)
    ensures settled ==> Delivered(frames) == Delivered(before) + rows
  {
    hide Position, Delivered, Standing, Served, After, Ascending;
    frames, cursor := before, from_;
    for j := 0 to |rows|
      invariant Standing(frames, full, start, reset, cursor)
      invariant Position(full, cursor) == Position(full, from_) + j
      invariant j == 0 ==> cursor == from_ && frames == before
      invariant j > 0 ==> frames != [] && frames[|frames| - 1] == Progress(rows[j - 1])
      invariant forall i :: 0 <= i < j ==> !Ends(rows[i].kind)
      invariant Delivered(frames) == Delivered(before) + rows[..j]
    {
      assert rows[j] == full[Position(full, cursor)];
      StandingMoves(frames, full, start, reset, cursor);
      DeliveredAppend(frames, Progress(rows[j]));
      cursor := rows[j].sequence;
      frames := frames + [Progress(rows[j])];
      if Ends(rows[j].kind) {
        StandingEmits(frames, full, start, reset, cursor, Settled);
        DeliveredAppend(frames, Settled);
        LastIsTerminal(full, Position(full, from_), rows, j);
        frames := frames + [Settled];
        return frames, cursor, true;
      }
    }
    settled := false;
  }

  /** A terminal event ends the page: nothing comes behind it. */
  lemma LastIsTerminal(full: seq<LogEvent>, p: nat, rows: seq<LogEvent>, j: nat)
    requires TerminalLast(full) && p + |rows| <= |full| && rows == full[p..p + |rows|]
    requires j < |rows| && Ends(rows[j].kind)
    ensures j == |rows| - 1
  {
    assert rows[j] == full[p + j];
  }

  // ---------------------------------------------------------------------------------------------
  // How far a connection gets.

  predicate Healthy(v: View) {
    !v.fails && v.session && v.run.Some?
  }

  /** One more page, of what a read shows behind the cursor the connection started with. */
  function Pace(before: nat, shown: nat): nat {
    if before + PAGE < shown then before + PAGE else if before < shown then shown else before
  }

  /** How many events these page reads deliver. */
  ghost function Paced(views: seq<View>, pages: seq<nat>, start: nat): nat
    decreases |pages|
  {
    if pages == [] || pages[|pages| - 1] >= |views| then 0
    else
      var n := |pages| - 1;
      Pace(Paced(views, pages[..n], start), |After(views[pages[n]].log, start)|)
  }

  ghost predicate InRange(views: seq<View>, pages: seq<nat>) {
    forall k :: 0 <= k < |pages| ==> pages[k] < |views|
  }

  /**
   * The page reads of a connection come right behind a successful check of a valid session, at most four
   * reads apart.
   */
  ghost predicate PageReads(views: seq<View>, pages: seq<nat>) {
    && InRange(views, pages) && (pages != [] ==> pages[0] == 1)
    && (forall k :: 0 <= k < |pages| ==> Checked(views, pages[k]))
    && (forall k :: 0 <= k < |pages| - 1 ==> Follows(pages, k))
  }

  predicate Checked(views: seq<View>, i: nat) {
    0 < i < |views| && !views[i - 1].fails && views[i - 1].session && !views[i].fails
  }

  predicate Follows(pages: seq<nat>, k: nat) {
    k + 1 < |pages| && pages[k] + 2 <= pages[k + 1] <= pages[k] + 4
  }

  /** The stream said why it ended. */
  predicate Closed(frames: seq<Frame>) {
    frames != [] && frames[|frames| - 1] in {Settled, SessionExpired, Unavailable}
  }

  /** Everything the last page read showed has been delivered. */
  ghost predicate CaughtUp(views: seq<View>, pages: seq<nat>, start: nat, delivered: seq<LogEvent>) {
    && pages != [] && pages[|pages| - 1] < |views|
    && (views[pages[|pages| - 1]].run.Some? ==> delivered == After(views[pages[|pages| - 1]].log, start))
  }

  /** No read fails, the session lasts, the run stays, and from read `j` on it is finished and its log is `full`. */
  ghost predicate FinishedFrom(views: seq<View>, full: seq<LogEvent>, j: nat) {
    && (forall i :: 0 <= i < |views| ==> Healthy(views[i]))
    && (forall i :: j <= i < |views| ==> views[i].log == full && !views[i].run.value.Live())
  }

  /** As many reads as a connection to a finished run needs at most. */
  function Enough(j: nat, pending: nat): nat {
    j + 7 + 2 * (pending / PAGE)
  }

  /** The page behind a cursor takes the connection one pace further; a page that is not full shows all there is. */
  lemma PagePaces(v: View, full: seq<LogEvent>, start: nat, cursor: nat, before: nat)
    requires Ascending(full) && ViewOf(v, full) && Position(full, cursor) == Position(full, start) + before
    ensures var page, shown := Page(After(v.log, cursor)), |After(v.log, start)|;
            && |page| <= PAGE && before + |page| == Pace(before, shown)
            && (|page| < PAGE ==> shown <= before + |page|)
            && (page == [] <==> After(v.log, cursor) == [])
  {
    if v.run.Some? {
      assert v.log == full[..|v.log|];
      PositionInPrefix(full, |v.log|, cursor);
      PositionInPrefix(full, |v.log|, start);
    }
    hide Position, Ascending, EndsWhenFinished;
  }

  /** A page that is not full, of a finished log, ends with its terminal event. */
  lemma PageEnds(full: seq<LogEvent>, cursor: nat)
    requires FinishedLog(full)
    ensures var page := Page(After(full, cursor));
            page != [] && |page| < PAGE ==> Ends(page[|page| - 1].kind)
  {
    hide Position, Ends;
  }

  lemma ReadView(views: seq<View>, full: seq<LogEvent>, i: nat)
    requires Reads(views, full) && i < |views|
    ensures ViewOf(views[i], full)
  {
    hide ViewOf;
  }

  /** A later read shows at least as much. */
  lemma ShownGrows(views: seq<View>, full: seq<LogEvent>, start: nat, i: nat, j: nat)
    requires Ascending(full) && Reads(views, full) && i < j < |views| && views[j].run.Some?
    ensures views[i].run.Some? && |After(views[i].log, start)| <= |After(views[j].log, start)|
  {
    var a, b := views[i], views[j];
    hide Position, Ascending;
    assert a.run.Some? && |a.log| <= |b.log|;
    ReadView(views, full, i);
    ReadView(views, full, j);
    assert a.log == full[..|a.log|] && b.log == full[..|b.log|];
    PositionInPrefix(full, |a.log|, start);
    PositionInPrefix(full, |b.log|, start);
  }

  /** As long as the run stays, a connection never gets ahead of what a read shows. */
  lemma {:induction false} PacedWithin(views: seq<View>, full: seq<LogEvent>, pages: seq<nat>, start: nat)
    requires Ascending(full) && Reads(views, full) && PageReads(views, pages) && pages != []
    requires views[pages[|pages| - 1]].run.Some?
    ensures Paced(views, pages, start) <= |After(views[pages[|pages| - 1]].log, start)|
    decreases |pages|
  {
    hide Position, Ascending, After, Reads, Checked;
    var n := |pages| - 1;
    if n > 0 {
      assert Follows(pages, n - 1);
      FirstReads(views, pages, n);
      ShownGrows(views, full, start, pages[n - 1], pages[n]);
      PacedWithin(views, full, pages[..n], start);
    }
  }

  lemma FirstReads(views: seq<View>, pages: seq<nat>, n: nat)
    requires PageReads(views, pages) && n <= |pages|
    ensures PageReads(views, pages[..n])
  {
    hide Checked;
    forall k | 0 <= k < n - 1 ensures Follows(pages[..n], k) { assert Follows(pages, k); }
  }

  lemma OneMoreRead(views: seq<View>, pages: seq<nat>, i: nat)
    requires PageReads(views, pages) && Checked(views, i)
    requires if pages == [] then i == 1 else pages[|pages| - 1] + 2 <= i <= pages[|pages| - 1] + 4
    ensures PageReads(views, pages + [i]) && (pages + [i])[..|pages|] == pages
  {
    var n, more := |pages|, pages + [i];
    forall k | 0 <= k < n ensures Follows(more, k) {
      if k < n - 1 { assert Follows(pages, k); }
    }
    hide Checked;
    assert forall k :: 0 <= k <= n ==> more[k] == if k < n then pages[k] else i;
  }

  /** A read that showed `shown` events is served in full after as many more pages as that takes, this one included. */
  lemma {:induction false} PacedAtLeast(views: seq<View>, full: seq<LogEvent>, pages: seq<nat>, start: nat, k: nat)
    requires Ascending(full) && Reads(views, full) && PageReads(views, pages) && k < |pages|
    requires views[pages[|pages| - 1]].run.Some?
    ensures var shown, most := |After(views[pages[k]].log, start)|, PAGE * (|pages| - k);
            Paced(views, pages, start) >= if most < shown then most else shown
    decreases |pages|
  {
    hide Position, Ascending, After, Reads, Checked;
    var n := |pages| - 1;
    if k < n {
      assert Follows(pages, n - 1);
      FirstReads(views, pages, n);
      ShownGrows(views, full, start, pages[n - 1], pages[n]);
      PacedAtLeast(views, full, pages[..n], start, k);
      LaterPages(views, pages, k, n);
      ShownGrows(views, full, start, pages[k], pages[n]);
    }
  }

  lemma {:induction false} LaterPages(views: seq<View>, pages: seq<nat>, k: nat, n: nat)
    requires PageReads(views, pages) && k < n < |pages|
    ensures pages[k] < pages[n]
    decreases n
  {
    hide Checked;
    assert Follows(pages, n - 1);
    if k < n - 1 { LaterPages(views, pages, k, n - 1); }
  }

  /**
   * How far a connection gets. Its page reads deliver exactly as many events as they show, at most a page each; it
   * only stops reading for a reason it reports or when the run is gone; it sends a heartbeat only when it has
   * caught up with the last read; and given enough reads of a finished run it ends with `settled`.
   */
  ghost predicate KeepsUp(views: seq<View>, full: seq<LogEvent>, start: nat, frames: seq<Frame>, pages: seq<nat>) {
    && frames != [] && PageReads(views, pages) && |Delivered(frames)| == Paced(views, pages, start)
    && (frames[|frames| - 1].Heartbeat? ==> CaughtUp(views, pages, start, Delivered(frames)))
    && EndsForReason(views, frames[|frames| - 1], pages) && Finishes(views, full, start, frames[|frames| - 1])
  }

  ghost predicate EndsForReason(views: seq<View>, last: Frame, pages: seq<nat>) {
    && (last.Unavailable? ==> exists v :: v in views && v.fails)
    && (last.SessionExpired? ==> exists v :: v in views && !v.session)
    && (last !in {Settled, SessionExpired, Unavailable} && (forall v :: v in views ==> v.run.Some?) ==>
          |views| <= if pages == [] then 1 else pages[|pages| - 1] + 4)
  }

  ghost predicate Finishes(views: seq<View>, full: seq<LogEvent>, start: nat, last: Frame) {
    forall j: nat :: FinishedFrom(views, full, j) && |views| >= Enough(j, |After(full, start)|) ==> last.Settled?
  }

  /** As many rounds as a connection to a run that is finished from read `j` on can have made. */
  ghost predicate InTime(views: seq<View>, full: seq<LogEvent>, i: nat, delivered: nat) {
    forall j: nat :: FinishedFrom(views, full, j) ==> i <= j + 3 + 2 * (delivered / PAGE)
  }

  /** Where the loop stands between two rounds, `i` reads into the connection. */
  ghost predicate Pacing(views: seq<View>, full: seq<LogEvent>, start: nat, cursor: nat, frames: seq<Frame>,
                         pages: seq<nat>, i: nat) {
    && PageReads(views, pages) && Position(full, cursor) == Position(full, start) + Paced(views, pages, start)
    && (if pages == [] then i == 0 else pages[|pages| - 1] < i <= pages[|pages| - 1] + 3)
    && (frames != [] && frames[|frames| - 1].Heartbeat? ==> CaughtUp(views, pages, start, Delivered(frames)))
    && (frames != [] && !Closed(frames))
    && InTime(views, full, i, Paced(views, pages, start))
  }

  /** One more page read, right behind its check. */
  lemma PageRead(views: seq<View>, full: seq<LogEvent>, start: nat, cursor: nat, frames: seq<Frame>, pages: seq<nat>,
                 i: nat)
    requires i + 1 < |views| && Checked(views, i + 1)
    requires Ascending(full) && Reads(views, full) && Pacing(views, full, start, cursor, frames, pages, i)
    ensures var page, pages' := Page(After(views[i + 1].log, cursor)), pages + [i + 1];
            && PageReads(views, pages')
            && Paced(views, pages', start) == Paced(views, pages, start) + |page| && |page| <= PAGE
            && (|page| < PAGE && views[i + 1].run.Some? ==>
                  Paced(views, pages', start) == |After(views[i + 1].log, start)|)
  {
    assert ViewOf(views[i + 1], full);
    hide Ascending, Position, ViewOf, Closed, Reads, FinishedFrom, CaughtUp, Delivered, After, Page, Checked;
    var pages' := pages + [i + 1];
    OneMoreRead(views, pages, i + 1);
    PagePaces(views[i + 1], full, start, cursor, Paced(views, pages, start));
    hide PageReads;
    if views[i + 1].run.Some? { PacedWithin(views, full, pages', start); }
  }

  /** `LIMIT 50`. */
  function Page(pending: seq<LogEvent>): seq<LogEvent> {
    if |pending| > PAGE then pending[..PAGE] else pending
  }

  /** A page read through a view is the next stretch of the full log. */
  lemma PageOfLog(v: View, full: seq<LogEvent>, cursor: nat)
    requires Ascending(full) && ViewOf(v, full)
    ensures var page, p := Page(After(v.log, cursor)), Position(full, cursor);
            |page| <= PAGE && p + |page| <= |full| && page == full[p..p + |page|]
  {
    var p := Position(full, cursor);
    if v.run.Some? {
      assert v.log == full[..|v.log|];
      PositionInPrefix(full, |v.log|, cursor);
      var q := Position(v.log, cursor);
      var page := Page(After(v.log, cursor));
      assert page == v.log[q..q + |page|];
      hide *;
      SliceOfPrefix(full, |v.log|, q, q + |page|);
      assert q == p || |page| == 0;
    }
  }

  lemma SliceOfPrefix(full: seq<LogEvent>, m: nat, a: nat, b: nat)
    requires a <= b <= m <= |full|
    ensures full[..m][a..b] == full[a..b]
  {
  }

  /** A finished run with nothing left after the cursor has been delivered entirely. */
  lemma NothingPending(search: View, rest: View, full: seq<LogEvent>, cursor: nat)
    requires Ascending(full) && TerminalLast(full) && ViewOf(search, full) && ViewOf(rest, full)
    requires search.run.Some? && !search.run.value.Live() && rest.run.Some? && |search.log| <= |rest.log|
    requires After(rest.log, cursor) == []
    ensures Position(full, cursor) == |full| && FinishedLog(full)
  {
    var last := |search.log| - 1;
    assert full[last] == search.log[last];
    assert rest.log == full;
  }

  // ---------------------------------------------------------------------------------------------
  // The loop.

  lemma PacingStarts(views: seq<View>, full: seq<LogEvent>, start: nat, reset: bool)
    ensures Pacing(views, full, start, start, Opening(reset), [], 0)
  {
    hide FinishedFrom;
  }

  lemma SlowEnough(views: seq<View>, full: seq<LogEvent>, i: nat, delivered: nat, pending: nat, j: nat)
    requires InTime(views, full, i, delivered) && delivered <= pending && FinishedFrom(views, full, j)
    ensures i + 3 < Enough(j, pending)
  {
    hide FinishedFrom;
  }

  /** An end that is not `settled`, as long as there was a reason for it. */
  lemma EndFinishes(views: seq<View>, full: seq<LogEvent>, start: nat, i: nat, delivered: nat, last: Frame)
    requires InTime(views, full, i, delivered) && delivered <= |After(full, start)|
    requires last.Settled? || |views| <= i + 3 || exists v :: v in views && !Healthy(v)
    ensures Finishes(views, full, start, last)
  {
    forall j: nat | FinishedFrom(views, full, j) && |views| >= Enough(j, |After(full, start)|) ensures last.Settled? {
      SlowEnough(views, full, i, delivered, |After(full, start)|, j);
      if v :| v in views && !Healthy(v) { assert false; }
    }
  }

  lemma StandingCounts(frames: seq<Frame>, full: seq<LogEvent>, start: nat, reset: bool, cursor: nat, f: Frame)
    requires Standing(frames, full, start, reset, cursor) && !f.Progress?
    ensures |Delivered(frames)| == Position(full, cursor) - Position(full, start) <= |After(full, start)|
    ensures Delivered(frames + [f]) == Delivered(frames)
  {
    DeliveredAppend(frames, f);
  }

  /** The connection ends between two rounds: there are no more reads, or the check in front of the next page failed. */
  lemma PacingEnds(views: seq<View>, full: seq<LogEvent>, start: nat, cursor: nat, frames: seq<Frame>, pages: seq<nat>,
                   reset: bool, i: nat, tail: seq<Frame>)
    requires Pacing(views, full, start, cursor, frames, pages, i) && Standing(frames, full, start, reset, cursor)
    requires tail == [] || tail == [Unavailable] || tail == [SessionExpired]
    requires tail == [Unavailable] ==> exists v :: v in views && v.fails
    requires tail == [SessionExpired] ==> exists v :: v in views && !v.session
    requires tail == [] ==> |views| <= i + 1
    ensures KeepsUp(views, full, start, frames + tail, pages)
  {
    hide Standing, Delivered, Position, After, PageReads, Paced, CaughtUp, InTime, Finishes;
    StandingCounts(frames, full, start, reset, cursor, Unavailable);
    StandingCounts(frames, full, start, reset, cursor, SessionExpired);
    assert frames + [] == frames;
    var all := frames + tail;
    EndFinishes(views, full, start, i, Paced(views, pages, start), all[|all| - 1]);
  }

  /** Where the loop stands behind a page that was not full, read at `p`. */
  ghost predicate Paged(views: seq<View>, full: seq<LogEvent>, start: nat, cursor: nat, frames: seq<Frame>,
                        pages: seq<nat>, p: nat, rows: seq<LogEvent>) {
    && PageReads(views, pages) && Position(full, cursor) == Position(full, start) + Paced(views, pages, start)
    && pages != [] && pages[|pages| - 1] == p < |views| && frames != [] && !Closed(frames)
    && CaughtUp(views, pages, start, Delivered(frames))
    && p > 0 && InTime(views, full, p - 1, Paced(views, pages, start))
    && (forall j: nat :: FinishedFrom(views, full, j) && j < p ==> rows == [] && After(full, cursor) == [])
  }

  /** A full page leads to the next round. */
  lemma FullPage(views: seq<View>, full: seq<LogEvent>, start: nat, before: nat, cursor: nat, seen: seq<Frame>,
                 frames: seq<Frame>, pages: seq<nat>, i: nat)
    requires i + 1 < |views| && Checked(views, i + 1)
    requires var page := Page(After(views[i + 1].log, before));
             && |page| == PAGE && Position(full, cursor) == Position(full, before) + |page|
             && frames != [] && frames[|frames| - 1] == Progress(page[|page| - 1])
    requires Ascending(full) && Reads(views, full) && Pacing(views, full, start, before, seen, pages, i)
    ensures Pacing(views, full, start, cursor, frames, pages + [i + 1], i + 2)
  {
    hide Ascending, Position, Reads, Page, After, PageReads, Paced, FinishedFrom, CaughtUp, Checked, Delivered;
    PageRead(views, full, start, before, seen, pages, i);
  }

  /** A shorter page, without a terminal event, shows all there was. */
  lemma ShortPage(views: seq<View>, full: seq<LogEvent>, start: nat, before: nat, cursor: nat, seen: seq<Frame>,
                  frames: seq<Frame>, pages: seq<nat>, i: nat, reset: bool, rows: seq<LogEvent>)
    requires i + 1 < |views| && Checked(views, i + 1) && Standing(frames, full, start, reset, cursor)
    requires rows == Page(After(views[i + 1].log, before)) && |rows| < PAGE
    requires Position(full, cursor) == Position(full, before) + |rows|
    requires if rows == [] then cursor == before && frames == seen
             else frames != [] && frames[|frames| - 1] == Progress(rows[|rows| - 1]) && !Ends(rows[|rows| - 1].kind)
    requires Ascending(full) && Reads(views, full) && Pacing(views, full, start, before, seen, pages, i)
    ensures Paged(views, full, start, cursor, frames, pages + [i + 1], i + 1, rows)
  {
    hide Ascending, Position, Page, After, PageReads, Paced, FinishedFrom, Checked, Delivered, Standing, ViewOf, Ends;
    var v, pages' := views[i + 1], pages + [i + 1];
    PageRead(views, full, start, before, seen, pages, i);
    DeliveredShown(v, full, start, cursor, frames, reset, Paced(views, pages', start));
    forall j: nat | FinishedFrom(views, full, j) && j < i + 1
      ensures rows == [] && After(full, cursor) == []
    {
      FinishedPage(views, full, j, i + 1, before);
    }
    hide Reads;
  }

  lemma FinishedPage(views: seq<View>, full: seq<LogEvent>, j: nat, p: nat, cursor: nat)
    requires Reads(views, full) && FinishedFrom(views, full, j) && j <= p < |views|
    ensures var page := Page(After(views[p].log, cursor));
            && (page != [] && |page| < PAGE ==> Ends(page[|page| - 1].kind))
            && (page == [] ==> After(full, cursor) == [])
  {
    assert ViewOf(views[p], full) && views[p].log == full && Healthy(views[p]);
    PageEnds(full, cursor);
    hide After, Ends;
  }

  lemma DeliveredShown(v: View, full: seq<LogEvent>, start: nat, cursor: nat, frames: seq<Frame>, reset: bool, n: nat)
    requires Ascending(full) && ViewOf(v, full) && Standing(frames, full, start, reset, cursor)
    requires Position(full, cursor) == Position(full, start) + n
    ensures v.run.Some? && n == |After(v.log, start)| ==> Delivered(frames) == After(v.log, start)
  {
    if v.run.Some? {
      assert v.log == full[..|v.log|];
      PositionInPrefix(full, |v.log|, start);
      hide Position, Ascending, Delivered, Shaped, EndsWhenFinished;
      assert n == |After(v.log, start)| ==> forall k :: 0 <= k < n ==>
        After(v.log, start)[k] == v.log[Position(v.log, start) + k];
    }
  }

  /** The connection ends behind such a page. */
  lemma PagedEnds(views: seq<View>, full: seq<LogEvent>, start: nat, cursor: nat, frames: seq<Frame>, pages: seq<nat>,
                  reset: bool, p: nat, rows: seq<LogEvent>, tail: seq<Frame>)
    requires Paged(views, full, start, cursor, frames, pages, p, rows) && Standing(frames, full, start, reset, cursor)
    requires tail == [] || tail == [Unavailable] || tail == [Settled]
    requires tail == [Unavailable] ==> exists v :: v in views && v.fails
    requires tail == [] ==> |views| <= p + 2 || exists v :: v in views && v.run.None?
    ensures KeepsUp(views, full, start, frames + tail, pages)
  {
    hide Standing, Delivered, Position, After, PageReads, Paced, CaughtUp, InTime, Finishes, FinishedFrom;
    StandingCounts(frames, full, start, reset, cursor, Unavailable);
    StandingCounts(frames, full, start, reset, cursor, Settled);
    assert frames + [] == frames;
    var all := frames + tail;
    EndFinishes(views, full, start, p - 1, Paced(views, pages, start), all[|all| - 1]);
  }

  /** A heartbeat, or pending events behind a finished status, lead to the next round. */
  lemma PagedGoesOn(views: seq<View>, full: seq<LogEvent>, start: nat, cursor: nat, frames: seq<Frame>, pages: seq<nat>,
                    reset: bool, p: nat, rows: seq<LogEvent>, i: nat, tail: seq<Frame>)
    requires p + 2 <= i <= |views| && i <= p + 3 && views[p + 1].run.Some? && tail in {[], [Heartbeat]}
    requires if i == p + 2 then views[p + 1].run.value.Live() || rows != [] else After(views[p + 2].log, cursor) != []
    requires Paged(views, full, start, cursor, frames, pages, p, rows) && Standing(frames, full, start, reset, cursor)
    ensures Pacing(views, full, start, cursor, frames + tail, pages, i)
  {
    hide Standing, Delivered, Position, PageReads, Paced, CaughtUp, FinishedFrom, After, InTime;
    StandingCounts(frames, full, start, reset, cursor, Heartbeat);
    assert frames + [] == frames;
    NotYetFinished(views, full, cursor, p, rows, i, Paced(views, pages, start));
  }

  /** A connection that goes on behind a short page had read it before the run was finished. */
  lemma NotYetFinished(views: seq<View>, full: seq<LogEvent>, cursor: nat, p: nat, rows: seq<LogEvent>, i: nat,
                       delivered: nat)
    requires p + 2 <= i <= |views| && i <= p + 3 && views[p + 1].run.Some?
    requires if i == p + 2 then views[p + 1].run.value.Live() || rows != [] else After(views[p + 2].log, cursor) != []
    requires forall j: nat :: FinishedFrom(views, full, j) && j < p ==> rows == [] && After(full, cursor) == []
    ensures InTime(views, full, i, delivered)
  {
    hide After;
    forall j: nat | FinishedFrom(views, full, j) ensures i <= j + 3 + 2 * (delivered / PAGE) {
      assert j >= p;
    }
  }

  /** The terminal event was on the page. */
  lemma PageSettles(views: seq<View>, full: seq<LogEvent>, start: nat, before: nat, seen: seq<Frame>,
                    frames: seq<Frame>, pages: seq<nat>, i: nat, reset: bool)
    requires frames != [] && frames[|frames| - 1].Settled? && i + 1 < |views|
    requires |Delivered(frames)| == |Delivered(seen)| + |Page(After(views[i + 1].log, before))|
    requires Ascending(full) && Reads(views, full) && Pacing(views, full, start, before, seen, pages, i)
    requires Checked(views, i + 1) && Standing(seen, full, start, reset, before)
    ensures KeepsUp(views, full, start, frames, pages + [i + 1])
  {
    hide *;
    assert |Delivered(seen)| == Paced(views, pages, start) by {
      StandingCounts(seen, full, start, reset, before, Settled);
      PacingCounts(views, full, start, before, seen, pages, i);
    }
    assert PageReads(views, pages + [i + 1]) && |Delivered(frames)| == Paced(views, pages + [i + 1], start) by {
      PageRead(views, full, start, before, seen, pages, i);
    }
    SettledKeepsUp(views, full, start, frames, pages + [i + 1]);
  }

  lemma PacingCounts(views: seq<View>, full: seq<LogEvent>, start: nat, cursor: nat, frames: seq<Frame>,
                     pages: seq<nat>, i: nat)
    requires Pacing(views, full, start, cursor, frames, pages, i)
    ensures Position(full, cursor) == Position(full, start) + Paced(views, pages, start)
  {
    hide Position, Paced, PageReads;
  }

  lemma SettledKeepsUp(views: seq<View>, full: seq<LogEvent>, start: nat, frames: seq<Frame>, pages: seq<nat>)
    requires frames != [] && frames[|frames| - 1].Settled? && PageReads(views, pages)
    requires |Delivered(frames)| == Paced(views, pages, start)
    ensures KeepsUp(views, full, start, frames, pages)
  {
    hide Delivered, Paced, PageReads, After, FinishedFrom;
  }

  /** The generator of one connection; it stops when there are no more reads (the stream was aborted). */
  method Stream(views: seq<View>, ghost full: seq<LogEvent>, start: nat, reset: bool)
    returns (frames: seq<Frame>, ghost pages: seq<nat>)
    requires Ascending(full) && TerminalLast(full) && Reads(views, full)
    ensures Served(frames, full, start, reset)
    ensures Settled in frames && (forall v :: v in views ==> v.run.Some?) ==>
            Delivered(frames) == After(full, start) && FinishedLog(full)
    ensures KeepsUp(views, full, start, frames, pages)
  {
    hide Position, Delivered, Standing, Served, After, Ascending, TerminalLast, ViewOf, KeepsUp, Pacing, Paged, Page,
        Ends;
    StandingOpens(full, start, reset);
    PacingStarts(views, full, start, reset);
    frames := Opening(reset);
    pages := [];
    var cursor, i := start, 0;
    while i < |views|
      invariant 0 <= i <= |views|
      invariant Standing(frames, full, start, reset, cursor)
      invariant Pacing(views, full, start, cursor, frames, pages, i)
    {
      ghost var head := i;
      StandingServed(frames, full, start, reset, cursor);
      var check := views[i];
      i := i + 1;
      if check.fails || !check.session {
        var last := if check.fails then Unavailable else SessionExpired;
        StandingEmits(frames, full, start, reset, cursor, last);
        assert check in views;
        PacingEnds(views, full, start, cursor, frames, pages, reset, head, [last]);
        return frames + [last], pages;
      }
      if i == |views| {
        PacingEnds(views, full, start, cursor, frames, pages, reset, head, []);
        assert frames + [] == frames;
        return;
      }
      var read := views[i];
      i := i + 1;
      if read.fails {
        StandingEmits(frames, full, start, reset, cursor, Unavailable);
        assert read in views;
        PacingEnds(views, full, start, cursor, frames, pages, reset, head, [Unavailable]);
        return frames + [Unavailable], pages;
      }
      PageOfLog(read, full, cursor);
      assert Checked(views, head + 1);
      var rows := Page(After(read.log, cursor));
      ghost var seen, before, earlier := frames, cursor, pages;
      var settled;
      frames, cursor, settled := DeliverPage(rows, full, frames, cursor, start, reset);
      pages := pages + [head + 1];
      if settled {
        PageSettles(views, full, start, before, seen, frames, earlier, head, reset);
        return;
      }
      StandingServed(frames, full, start, reset, cursor);
      if |rows| == PAGE {
        FullPage(views, full, start, before, cursor, seen, frames, earlier, head);
        continue;
      }
      ShortPage(views, full, start, before, cursor, seen, frames, earlier, head, reset, rows);
      assert frames + [] == frames;
      if i == |views| {
        PagedEnds(views, full, start, cursor, frames, pages, reset, head + 1, rows, []);
        return;
      }
      var search := views[i];
      assert search in views;
      i := i + 1;
      if search.fails {
        StandingEmits(frames, full, start, reset, cursor, Unavailable);
        PagedEnds(views, full, start, cursor, frames, pages, reset, head + 1, rows, [Unavailable]);
        return frames + [Unavailable], pages;
      }
      if search.run.None? {
        PagedEnds(views, full, start, cursor, frames, pages, reset, head + 1, rows, []);
        return;
      }
      if !search.run.value.Live() && |rows| == 0 {
        if i == |views| {
          PagedEnds(views, full, start, cursor, frames, pages, reset, head + 1, rows, []);
          return;
        }
        var rest := views[i];
        assert rest in views;
        i := i + 1;
        if rest.fails {
          StandingEmits(frames, full, start, reset, cursor, Unavailable);
          PagedEnds(views, full, start, cursor, frames, pages, reset, head + 1, rows, [Unavailable]);
          return frames + [Unavailable], pages;
        }
        if After(rest.log, cursor) != [] {
          PagedGoesOn(views, full, start, cursor, frames, pages, reset, head + 1, rows, i, []);
          continue;
        }
        StandingEmits(frames, full, start, reset, cursor, Settled);
        if rest.run.Some? {
          NothingPending(search, rest, full, cursor);
        }
        PagedEnds(views, full, start, cursor, frames, pages, reset, head + 1, rows, [Settled]);
        return frames + [Settled], pages;
      }
      StandingEmits(frames, full, start, reset, cursor, Heartbeat);
      PagedGoesOn(views, full, start, cursor, frames, pages, reset, head + 1, rows, i, [Heartbeat]);
      frames := frames + [Heartbeat];
    }
    StandingServed(frames, full, start, reset, cursor);
    PacingEnds(views, full, start, cursor, frames, pages, reset, i, []);
    assert frames + [] == frames;
  }

  // ---------------------------------------------------------------------------------------------
  // The cursor check.

  datatype CursorReply = StartAt(cursor: nat, reset: bool) | InvalidCursor

  function Resolve(retained: seq<LogEvent>, cursor: nat): CursorReply {
    if cursor == 0 then StartAt(0, false)
    else if exists e :: e in retained && e.sequence == cursor then StartAt(cursor, false)
    else if retained == [] || cursor < retained[0].sequence then StartAt(0, true)
    else InvalidCursor
  }

  /**
   * How a cursor is resolved while events before `pruned` are gone: no cursor starts from what is there; the id of an
   * event that is still there continues behind it; the id of one that is gone resynchronises, and so does any id below
   * the retained ones or when none is retained; any other id is refused.
   */
  lemma CursorAnswers(all: seq<LogEvent>, pruned: nat, start: nat, cursor: nat)
    requires Ascending(all) && pruned <= start <= |all|
    ensures var reply := Resolve(all[pruned..start], cursor);
            && (cursor == 0 ==> reply == StartAt(0, false))
            && (forall i :: pruned <= i < start && all[i].sequence == cursor ==> reply == StartAt(cursor, false))
            && (forall i :: 0 <= i < pruned && all[i].sequence == cursor ==> reply == StartAt(0, true))
            && (cursor != 0 && (forall i :: 0 <= i < start ==> all[i].sequence != cursor) ==>
                  reply == if pruned == start || cursor < all[pruned].sequence then StartAt(0, true) else InvalidCursor)
  {
    var retained := all[pruned..start];
    assert forall i :: pruned <= i < start ==> retained[i - pruned] == all[i] && all[i] in retained;
    if e :| e in retained && e.sequence == cursor {
      var k :| 0 <= k < |retained| && retained[k] == e;
      assert all[pruned + k] == e;
    }
  }

  // ---------------------------------------------------------------------------------------------
  // A client over any schedule of connections.

  /** The client keeps the id of the last progress event; a reset discards what it has shown. */
  datatype Client = Client(lastId: nat, shown: seq<LogEvent>)

  function Receive(c: Client, frames: seq<Frame>): Client {
    if frames == [] then c
    else
      var before := Receive(c, frames[..|frames| - 1]);
      match frames[|frames| - 1]
      case Progress(e) => Client(e.sequence, before.shown + [e])
      case Reset => before.(shown := [])
      case _ => before
  }

  /**
   * One connection: events before `pruned` are gone, the log is `start` long when the client
   * connects and `closed` long when the stream ends, the run `stays` or retention removes it meanwhile, and the
   * client receives `received` of the frames.
   */
  datatype Connection = Connection(pruned: nat, start: nat, closed: nat, stays: bool, frames: seq<Frame>, received: nat)

  ghost predicate LegalConnection(all: seq<LogEvent>, c: Client, k: Connection) {
    && k.pruned <= k.start <= k.closed <= |all| && k.received <= |k.frames|
    && var reply := Resolve(all[k.pruned..k.start], c.lastId);
       reply.StartAt? ==> Answers(k.frames, all[k.pruned..k.closed], reply.cursor, reply.reset, k.stays)
  }

  /**
   * What a connection promises: the first events behind the cursor, and `settled` only when there will be no
   * others.
   */
  ghost predicate Answers(frames: seq<Frame>, full: seq<LogEvent>, cursor: nat, reset: bool, stays: bool) {
    Served(frames, full, cursor, reset)
        && (Settled in frames && stays ==> Delivered(frames) == After(full, cursor) && FinishedLog(full))
  }

  /** One request: the cursor check, then the stream. The connection it makes is a legal one. */
  method Serve(ghost all: seq<LogEvent>, ghost c: Client, ghost pruned: nat, ghost start: nat, ghost closed: nat,
               retained: seq<LogEvent>, views: seq<View>, cursor: nat)
    returns (reply: CursorReply, frames: seq<Frame>, ghost pages: seq<nat>)
    requires Ascending(all) && TerminalLast(all) && pruned <= start <= closed <= |all| && cursor == c.lastId
    requires retained == all[pruned..start] && Reads(views, all[pruned..closed])
    ensures reply == Resolve(retained, cursor) && (reply.InvalidCursor? ==> frames == [])
    ensures reply.StartAt? ==> Served(frames, all[pruned..closed], reply.cursor, reply.reset)
    ensures reply.StartAt? ==> KeepsUp(views, all[pruned..closed], reply.cursor, frames, pages)
    ensures LegalConnection(all, c,
                            Connection(pruned, start, closed, forall v :: v in views ==> v.run.Some?, frames, |frames|))
  {
    ghost var full := all[pruned..closed];
    AscendingSlice(all, pruned, closed);
    TerminalSlice(all, pruned, closed);
    hide Ascending, Served, Reads, After, Delivered, TerminalLast, FinishedLog, KeepsUp;
    reply := if cursor == 0 then StartAt(0, false)
             else if exists e :: e in retained && e.sequence == cursor then StartAt(cursor, false)
             else if retained == [] || cursor < retained[0].sequence then StartAt(0, true)
             else InvalidCursor;
    if reply.InvalidCursor? { return reply, [], []; }
    frames, pages := Stream(views, full, reply.cursor, reply.reset);
  }

  /** Whatever of it reaches the client. */
  lemma CutIsLegal(all: seq<LogEvent>, c: Client, k: Connection, received: nat)
    requires LegalConnection(all, c, k) && received <= |k.frames|
    ensures LegalConnection(all, c, k.(received := received))
  {
    hide Answers, Resolve;
  }

  lemma TerminalSlice(all: seq<LogEvent>, a: nat, b: nat)
    requires TerminalLast(all) && a <= b <= |all|
    ensures TerminalLast(all[a..b])
    ensures FinishedLog(all[a..b]) ==> b == |all|
  {
    assert forall i :: 0 <= i < b - a ==> all[a..b][i] == all[a + i];
  }

  ghost function Connect(all: seq<LogEvent>, c: Client, k: Connection): Client
    requires k.pruned <= k.start <= |all| && k.received <= |k.frames|
  {
    if Resolve(all[k.pruned..k.start], c.lastId).StartAt? then Receive(c, k.frames[..k.received]) else c
  }

  /** What the client shows is one stretch of the log, ending at its last id; the id is one the log issued. */
  ghost predicate GapFree(all: seq<LogEvent>, c: Client, seen: nat) {
    && seen <= |all|
    && (c.lastId == 0 || exists i :: 0 <= i < seen && all[i].sequence == c.lastId)
    && (c.shown == [] || exists a: nat, b: nat :: b <= seen && Segment(all, c, a, b))
  }

  ghost predicate Segment(all: seq<LogEvent>, c: Client, a: nat, b: nat) {
    a < b && EndsAt(all, c.lastId, b) && c.shown == all[a..b]
  }

  /** The event right before position `b` has this sequence number. */
  predicate EndsAt(all: seq<LogEvent>, id: nat, b: nat) {
    0 < b <= |all| && all[b - 1].sequence == id
  }

  lemma {:induction false} DeliveredConcat(a: seq<Frame>, b: seq<Frame>)
    ensures Delivered(a + b) == Delivered(a) + Delivered(b)
    decreases |b|
  {
    if b == [] {
      assert a + b == a;
    } else {
      DeliveredConcat(a, b[..|b| - 1]);
      assert (a + b)[..|a + b| - 1] == a + b[..|b| - 1];
    }
  }

  lemma {:induction false} ReceiveConcat(c: Client, a: seq<Frame>, b: seq<Frame>)
    ensures Receive(c, a + b) == Receive(Receive(c, a), b)
    decreases |b|
  {
    if b == [] {
      assert a + b == a;
    } else {
      ReceiveConcat(c, a, b[..|b| - 1]);
      assert (a + b)[..|a + b| - 1] == a + b[..|b| - 1];
    }
  }

  /** Frames without a reset append what they deliver and move the last id to the last of it. */
  lemma {:induction false} ReceivePlain(c: Client, frames: seq<Frame>)
    requires forall i :: 0 <= i < |frames| ==> !frames[i].Reset?
    ensures var d := Delivered(frames);
            Receive(c, frames) == Client(if d == [] then c.lastId else d[|d| - 1].sequence, c.shown + d)
    decreases |frames|
  {
    if frames != [] {
      ReceivePlain(c, frames[..|frames| - 1]);
    }
  }

  lemma ShapedBegins(frames: seq<Frame>, reset: bool)
    requires Shaped(frames, reset)
    ensures |Opening(reset)| <= |frames| && frames[..|Opening(reset)|] == Opening(reset)
    ensures forall i :: |Opening(reset)| <= i < |frames| ==> !frames[i].Reset?
  {
  }

  /** Receiving some first frames of a served connection: perhaps a reset, then consecutive events. */
  lemma ReceiveShaped(c: Client, frames: seq<Frame>, reset: bool, received: nat)
    requires Shaped(frames, reset) && received <= |frames|
    ensures Delivered(frames[..received]) <= Delivered(frames)
    ensures Appended(c, Receive(c, frames[..received]), reset, Delivered(frames[..received]))
  {
    hide Shaped, Delivered, Receive, Opening;
    var head := |Opening(reset)|;
    OpeningReceived(c, reset, received);
    ShapedBegins(frames, reset);
    DeliveredConcat(frames[..received], frames[received..]);
    assert frames == frames[..received] + frames[received..];
    if received <= head {
      assert frames[..received] == frames[..head][..received];
    } else {
      var rest := frames[head..received];
      assert frames[..received] == Opening(reset) + rest;
      assert forall i :: 0 <= i < |rest| ==> rest[i] == frames[head + i];
      DeliveredConcat(Opening(reset), rest);
      ReceiveConcat(c, Opening(reset), rest);
      ReceivePlain(Receive(c, Opening(reset)), rest);
    }
  }

  /** `after` is `c` with `d` appended, or `d` alone behind a reset. */
  predicate Appended(c: Client, after: Client, reset: bool, d: seq<LogEvent>) {
    && after.lastId == (if d == [] then c.lastId else d[|d| - 1].sequence)
    && (after.shown == d || (!reset && after.shown == c.shown + d) || (d == [] && after.shown == c.shown))
  }

  lemma OpeningReceived(c: Client, reset: bool, n: nat)
    ensures n <= |Opening(reset)| ==>
              && Delivered(Opening(reset)[..n]) == [] && Receive(c, Opening(reset)[..n]).lastId == c.lastId
              && Receive(c, Opening(reset)[..n]).shown in {c.shown, []}
    ensures Delivered(Opening(reset)) == []
    ensures Receive(c, Opening(reset)) == if reset then c.(shown := []) else c
  {
    assert [RetryHint][..0] == [] && [RetryHint][..1] == [RetryHint];
    assert [RetryHint, Reset][..0] == [] && [RetryHint, Reset][..1] == [RetryHint]
        && [RetryHint, Reset][..2] == [RetryHint, Reset];
    assert Delivered([RetryHint]) == [] && Receive(c, [RetryHint]) == c;
  }

  lemma ServedBegins(all: seq<LogEvent>, c: Client, k: Connection, reply: CursorReply)
    requires LegalConnection(all, c, k) && reply == Resolve(all[k.pruned..k.start], c.lastId) && reply.StartAt?
    ensures k.pruned <= k.start <= k.closed <= |all| && k.received <= |k.frames| && Shaped(k.frames, reply.reset)
    ensures Delivered(k.frames) <= all[k.pruned..k.closed][Position(all[k.pruned..k.closed], reply.cursor)..]
    ensures Connect(all, c, k) == Receive(c, k.frames[..k.received])
  {
    hide Delivered, Position, Shaped, Resolve, Receive, FinishedLog;
  }

  /** What one connection does to the client: it appends a segment that starts at the resolved cursor. */
  lemma ConnectAppends(all: seq<LogEvent>, c: Client, k: Connection, reply: CursorReply) returns (a: nat, b: nat)
    requires LegalConnection(all, c, k) && reply == Resolve(all[k.pruned..k.start], c.lastId) && reply.StartAt?
    ensures a <= b <= k.closed && a == k.pruned + Position(all[k.pruned..k.closed], reply.cursor)
    ensures Appended(c, Connect(all, c, k), reply.reset, all[a..b])
  {
    hide *;
    ServedBegins(all, c, k, reply);
    var d := Delivered(k.frames[..k.received]);
    ReceiveShaped(c, k.frames, reply.reset, k.received);
    var p := Position(all[k.pruned..k.closed], reply.cursor);
    DeliveredSegment(all, k.pruned, k.closed, p, Delivered(k.frames), d);
    a, b := k.pruned + p, k.pruned + p + |d|;
  }

  /** One more connection keeps the client gap-free, and its own last id is never refused. */
  lemma ConnectKeeps(all: seq<LogEvent>, c: Client, k: Connection, seen: nat)
    requires Ascending(all) && GapFree(all, c, seen) && LegalConnection(all, c, k) && seen <= k.start
    ensures Resolve(all[k.pruned..k.start], c.lastId).StartAt?
    ensures GapFree(all, Connect(all, c, k), k.closed)
  {
    hide Connect, Resolve, Served, Position, Ascending, GapFree, Appended;
    CursorAccepted(all, c, k, seen);
    var reply := Resolve(all[k.pruned..k.start], c.lastId);
    var a, b := ConnectAppends(all, c, k, reply);
    if !reply.reset {
      UnresetCursor(all[k.pruned..k.start], c.lastId);
      forall b': nat | EndsAt(all, c.lastId, b') ensures b' == a {
        ContinuesAt(all, c, k, b');
      }
    }
    AppendKeeps(all, c, Connect(all, c, k), reply.reset, seen, k.closed, a, b);
  }

  lemma UnresetCursor(retained: seq<LogEvent>, cursor: nat)
    ensures var reply := Resolve(retained, cursor); reply.StartAt? && !reply.reset ==> reply == StartAt(cursor, false)
  {
  }

  /** Appending the stretch right behind what the client shows leaves no gap. */
  lemma AppendKeeps(all: seq<LogEvent>, c: Client, after: Client, reset: bool, seen: nat, closed: nat, a: nat, b: nat)
    requires GapFree(all, c, seen) && seen <= closed <= |all| && a <= b <= closed
             && Appended(c, after, reset, all[a..b])
    requires !reset ==> forall b': nat :: EndsAt(all, c.lastId, b') ==> b' == a
    ensures GapFree(all, after, closed)
  {
    if c.shown != [] {
      var a': nat, b': nat :| b' <= seen && Segment(all, c, a', b');
      if a == b {
        assert after.shown != [] ==> Segment(all, after, a', b');
      } else if after.shown != all[a..b] {
        assert b' == a;
        Joined(all, a', a, b);
        assert Segment(all, after, a', b);
      }
    }
    if a < b {
      assert all[b - 1].sequence == after.lastId;
      if after.shown == all[a..b] || c.shown == [] {
        assert [] + all[a..b] == all[a..b];
        assert Segment(all, after, a, b);
      }
    }
  }

  lemma Joined(all: seq<LogEvent>, a: nat, b: nat, c: nat)
    requires a <= b <= c <= |all|
    ensures all[a..b] + all[b..c] == all[a..c]
  {
  }

  lemma DeliveredSegment(all: seq<LogEvent>, from_: nat, to: nat, p: nat, delivered: seq<LogEvent>, d: seq<LogEvent>)
    requires from_ <= to <= |all| && p <= to - from_ && d <= delivered <= all[from_..to][p..]
    ensures from_ + p + |d| <= to && d == all[from_ + p..from_ + p + |d|]
  {
    assert forall i :: 0 <= i < |d| ==> d[i] == delivered[i] == all[from_..to][p..][i] == all[from_ + p + i];
  }

  lemma CursorAccepted(all: seq<LogEvent>, c: Client, k: Connection, seen: nat)
    requires Ascending(all) && GapFree(all, c, seen) && LegalConnection(all, c, k) && seen <= k.start
    ensures Resolve(all[k.pruned..k.start], c.lastId).StartAt?
  {
    hide Served;
    var retained := all[k.pruned..k.start];
    if c.lastId != 0 {
      var i :| 0 <= i < seen && all[i].sequence == c.lastId;
      if i >= k.pruned {
        assert retained[i - k.pruned] == all[i];
      } else if retained != [] {
        assert retained[0] == all[k.pruned];
      }
    }
  }

  /** Without a reset, delivery resumes right behind the event the client saw last. */
  lemma ContinuesAt(all: seq<LogEvent>, c: Client, k: Connection, b: nat)
    requires Ascending(all) && k.pruned <= k.start <= k.closed <= |all|
    requires EndsAt(all, c.lastId, b)
    requires Resolve(all[k.pruned..k.start], c.lastId) == StartAt(c.lastId, false)
    ensures b == k.pruned + Position(all[k.pruned..k.closed], c.lastId)
  {
    var full, retained := all[k.pruned..k.closed], all[k.pruned..k.start];
    var e :| e in retained && e.sequence == c.lastId;
    var x :| 0 <= x < |retained| && retained[x] == e;
    assert full[x] == retained[x] == all[k.pruned + x];
    AscendingSlice(all, k.pruned, k.closed);
    PositionOfEvent(full, x);
  }

  lemma AscendingSlice(all: seq<LogEvent>, a: nat, b: nat)
    requires Ascending(all) && a <= b <= |all|
    ensures Ascending(all[a..b])
  {
    assert forall i :: 0 <= i < b - a ==> all[a..b][i] == all[a + i];
  }

  ghost function Session(all: seq<LogEvent>, ks: seq<Connection>): Client
    decreases |ks|
  {
    if ks == [] then Client(0, [])
    else
      var c, k := Session(all, ks[..|ks| - 1]), ks[|ks| - 1];
      if k.pruned <= k.start <= |all| && k.received <= |k.frames| then Connect(all, c, k) else c
  }

  /** A schedule: every connection is served from the log as it then is, and the log only grows. */
  ghost predicate Schedule(all: seq<LogEvent>, ks: seq<Connection>)
    decreases |ks|
  {
    ks != [] ==>
      && Schedule(all, ks[..|ks| - 1])
      && LegalConnection(all, Session(all, ks[..|ks| - 1]), ks[|ks| - 1])
      && (|ks| > 1 ==> ks[|ks| - 2].closed <= ks[|ks| - 1].start)
  }

  /**
   * Over any disconnect and reconnect schedule, what a client shows since its last reset has no gap and no
   * repetition.
   */
  lemma {:induction false} ReconnectsStayGapFree(all: seq<LogEvent>, ks: seq<Connection>)
    requires Ascending(all) && Schedule(all, ks)
    ensures GapFree(all, Session(all, ks), if ks == [] then 0 else ks[|ks| - 1].closed)
    decreases |ks|
  {
    if ks != [] {
      ReconnectsStayGapFree(all, ks[..|ks| - 1]);
      ConnectKeeps(all, Session(all, ks[..|ks| - 1]), ks[|ks| - 1], if |ks| == 1 then 0 else ks[|ks| - 2].closed);
    }
  }

  /** Behind a connection received to its end, the client's last id is that of the last event delivered. */
  lemma LastIdAfter(all: seq<LogEvent>, c: Client, k: Connection, reply: CursorReply)
    requires LegalConnection(all, c, k) && reply == Resolve(all[k.pruned..k.start], c.lastId) && reply.StartAt?
    requires k.received == |k.frames|
    ensures var d := Delivered(k.frames); Connect(all, c, k).lastId == if d == [] then c.lastId else d[|d| - 1].sequence
  {
    ServedBegins(all, c, k, reply);
    assert k.frames[..k.received] == k.frames;
    ReceiveShaped(c, k.frames, reply.reset, k.received);
    hide Delivered, Receive, Shaped, Position, Served, Connect, Resolve, LegalConnection;
  }

  lemma SettledFacts(all: seq<LogEvent>, c: Client, k: Connection, reply: CursorReply)
    requires LegalConnection(all, c, k) && reply == Resolve(all[k.pruned..k.start], c.lastId) && reply.StartAt?
    requires k.stays && Settled in k.frames[..k.received]
    ensures k.pruned <= k.start <= k.closed <= |all| && k.received == |k.frames|
    ensures var full := all[k.pruned..k.closed]; Delivered(k.frames) == After(full, reply.cursor) && FinishedLog(full)
  {
    ServedBegins(all, c, k, reply);
    SettledIsLast(k.frames, reply.reset, k.received);
    assert Settled in k.frames;
    hide Delivered, Shaped, Position, Served, Resolve, FinishedLog;
  }

  /** A connection that received `settled` for a run that stays leaves nothing undelivered, now or later. */
  lemma SettledLeavesNothing(all: seq<LogEvent>, c: Client, k: Connection, seen: nat)
    requires Ascending(all) && TerminalLast(all) && GapFree(all, c, seen) && LegalConnection(all, c, k)
             && seen <= k.start
    requires k.stays && Settled in k.frames[..k.received]
    ensures k.closed == |all| && all != [] && Connect(all, c, k).lastId == all[|all| - 1].sequence
  {
    CursorAccepted(all, c, k, seen);
    var reply := Resolve(all[k.pruned..k.start], c.lastId);
    SettledFacts(all, c, k, reply);
    LastIdAfter(all, c, k, reply);
    var full := all[k.pruned..k.closed];
    TerminalSlice(all, k.pruned, k.closed);
    AscendingSlice(all, k.pruned, k.closed);
    hide *;
    FinishedNotEmpty(full);
    assert full[|full| - 1] == all[|all| - 1];
    WholeTail(full, reply.cursor);
    if After(full, reply.cursor) == [] { AlreadyThere(all, c, k, seen); }
  }

  /**
   * A client whose connection keeps up, and is received to its end, has seen the whole log of a run that was finished
   * early enough.
   */
  lemma FinishedRunIsShown(all: seq<LogEvent>, c: Client, k: Connection, seen: nat, views: seq<View>, pages: seq<nat>,
                           j: nat)
    requires Ascending(all) && TerminalLast(all) && GapFree(all, c, seen) && LegalConnection(all, c, k)
             && seen <= k.start && k.stays && k.received == |k.frames|
    requires var full, reply := all[k.pruned..k.closed], Resolve(all[k.pruned..k.start], c.lastId);
             reply.StartAt? ==>
               KeepsUp(views, full, reply.cursor, k.frames, pages) && FinishedFrom(views, full, j)
               && |views| >= Enough(j, |After(full, reply.cursor)|)
    ensures k.closed == |all| && all != [] && Connect(all, c, k).lastId == all[|all| - 1].sequence
  {
    hide Ascending, TerminalLast, GapFree, FinishedFrom, After, PageReads, Delivered, CaughtUp, EndsForReason, Connect;
    CursorAccepted(all, c, k, seen);
    assert k.frames[|k.frames| - 1].Settled?;
    assert k.frames[..k.received] == k.frames;
    hide KeepsUp, LegalConnection, Resolve;
    SettledLeavesNothing(all, c, k, seen);
  }

  lemma FinishedNotEmpty(log: seq<LogEvent>)
    ensures FinishedLog(log) ==> log != []
  {
  }

  /** What lies behind a cursor is nothing, or ends with the last event. */
  lemma WholeTail(log: seq<LogEvent>, cursor: nat)
    requires Ascending(log) && log != []
    ensures var tail := After(log, cursor); if tail == [] then log[|log| - 1].sequence <= cursor
            else tail[|tail| - 1] == log[|log| - 1]
  {
    PositionSplits(log, cursor);
    hide Position, Ascending;
  }

  lemma SettledIsLast(frames: seq<Frame>, reset: bool, received: nat)
    requires Shaped(frames, reset) && received <= |frames| && Settled in frames[..received]
    ensures received == |frames|
  {
    var i :| 0 <= i < received && frames[..received][i] == Settled;
    assert frames[i].Settled?;
  }

  /** A cursor at or behind the last event of the log is that of the last event. */
  lemma AlreadyThere(all: seq<LogEvent>, c: Client, k: Connection, seen: nat)
    requires Ascending(all) && GapFree(all, c, seen) && k.pruned <= k.start <= |all| && all != []
    requires var reply := Resolve(all[k.pruned..k.start], c.lastId);
             reply.StartAt? && all[|all| - 1].sequence <= reply.cursor
    ensures c.lastId == all[|all| - 1].sequence
  {
    var reply := Resolve(all[k.pruned..k.start], c.lastId);
    assert all[|all| - 1].sequence > 0;
    assert reply.cursor == c.lastId;
    var i :| 0 <= i < seen && all[i].sequence == c.lastId;
  }

  /**
   * Over any schedule, `settled` reaches the client of a run that stays only when the client has seen the
   * whole log.
   */
  lemma SettledMeansComplete(all: seq<LogEvent>, ks: seq<Connection>)
    requires Ascending(all) && TerminalLast(all) && Schedule(all, ks) && ks != []
    requires var k := ks[|ks| - 1]; k.stays && Settled in k.frames[..k.received]
    ensures all != [] && Session(all, ks).lastId == all[|all| - 1].sequence
    ensures Session(all, ks).shown != [] ==> exists a: nat :: Segment(all, Session(all, ks), a, |all|)
  {
    var before, k := Session(all, ks[..|ks| - 1]), ks[|ks| - 1];
    ReconnectsStayGapFree(all, ks[..|ks| - 1]);
    ReconnectsStayGapFree(all, ks);
    hide Ascending, LegalConnection, TerminalLast;
    var seen := if |ks| == 1 then 0 else ks[|ks| - 2].closed;
    SettledLeavesNothing(all, before, k, seen);
    EndsWhole(all, Session(all, ks), k.closed);
  }

  /** Sequence numbers are unique, so a segment that ends at the last one ends at the end. */
  lemma EndsWhole(all: seq<LogEvent>, c: Client, seen: nat)
    requires Ascending(all) && GapFree(all, c, seen) && all != [] && c.lastId == all[|all| - 1].sequence
    ensures c.shown != [] ==> exists a: nat :: Segment(all, c, a, |all|)
  {
    if c.shown != [] {
      var a: nat, b: nat :| b <= seen && Segment(all, c, a, b);
      assert b == |all|;
    }
  }

  // ---------------------------------------------------------------------------------------------
  // The logs of the pipeline are such logs.

  /**
   * Sequence numbers of the events of one run rise as they are committed: their transactions wait for each
   * other's rows.
   */
  ghost predicate Rising(events: seq<RunEvent>, run: RunId, number: nat -> nat) {
    && (forall i :: 0 <= i < |events| && events[i].run == run ==> number(i) > 0)
    && (forall i, j :: 0 <= i < j < |events| && events[i].run == run && events[j].run == run ==> number(i) < number(j))
  }

  /** The events of a run with their sequence numbers. */
  function Sequenced(events: seq<RunEvent>, run: RunId, number: nat -> nat): seq<LogEvent>
    decreases |events|
  {
    if events == [] then []
    else
      var n := |events| - 1;
      Sequenced(events[..n], run, number) + (if events[n].run == run then [LogEvent(number(n), events[n].kind)] else [])
  }

  /** Every event of the log is one of the run's, with its number. */
  lemma {:induction false} SequencedMembers(events: seq<RunEvent>, run: RunId, number: nat -> nat, e: LogEvent)
    requires e in Sequenced(events, run, number)
    ensures exists i :: 0 <= i < |events| && events[i].run == run && e.sequence == number(i)
    decreases |events|
  {
    var n := |events| - 1;
    if e in Sequenced(events[..n], run, number) {
      SequencedMembers(events[..n], run, number, e);
      var i :| 0 <= i < n && events[..n][i].run == run && e.sequence == number(i);
      assert events[i].run == run;
    } else {
      assert events[n].run == run;
    }
  }

  lemma {:induction false} SequencedAscends(events: seq<RunEvent>, run: RunId, number: nat -> nat)
    requires Rising(events, run, number)
    ensures Ascending(Sequenced(events, run, number))
    decreases |events|
  {
    if events != [] {
      var n := |events| - 1;
      RisingBefore(events[..n], events, run, number);
      SequencedAscends(events[..n], run, number);
      var before := Sequenced(events[..n], run, number);
      forall i | 0 <= i < |before| ensures events[n].run == run ==> before[i].sequence < number(n) {
        SequencedMembers(events[..n], run, number, before[i]);
        var j :| 0 <= j < n && events[..n][j].run == run && before[i].sequence == number(j);
        assert events[j].run == run;
      }
    }
  }

  lemma {:induction false} SequencedKinds(events: seq<RunEvent>, run: RunId, number: nat -> nat)
    ensures Kinds(Sequenced(events, run, number)) == LogOf(events, run)
    decreases |events|
  {
    if events != [] {
      var n := |events| - 1;
      SequencedKinds(events[..n], run, number);
      var before := Sequenced(events[..n], run, number);
      assert forall e :: Kinds(before + [e]) == Kinds(before) + [e.kind];
    }
  }

  lemma {:induction false} SequencedGrows(events: seq<RunEvent>, more: seq<RunEvent>, run: RunId, number: nat -> nat)
    ensures Sequenced(events, run, number) <= Sequenced(events + more, run, number)
    decreases |more|
  {
    if more == [] {
      assert events + more == events;
    } else {
      SequencedGrows(events, more[..|more| - 1], run, number);
      assert (events + more)[..|events + more| - 1] == events + more[..|more| - 1];
    }
  }

  ghost function LogAt(ops: seq<Op>, n: nat, run: RunId, number: nat -> nat): seq<LogEvent>
    requires n <= |ops|
  {
    Sequenced(At(ops[..n]).events, run, number)
  }

  /** What the stream relies on holds of every log of the pipeline, at every point of every run. */
  lemma PipelineLog(ops: seq<Op>, n: nat, run: RunId, number: nat -> nat)
    requires LegalOps(ops) && n <= |ops| && Rising(At(ops).events, run, number) && run in At(ops[..n]).runs
    ensures var log, all := LogAt(ops, n, run, number), LogAt(ops, |ops|, run, number);
            && Ascending(all) && TerminalLast(all) && log <= all && EndsWhenFinished(log, At(ops[..n]).runs[run].status)
  {
    assert ops[..|ops|] == ops;
    RunsOnlyAdvance(ops, n);
    var before, after := At(ops[..n]).events, At(ops).events;
    assert before + after[|before|..] == after;
    SequencedGrows(before, after[|before|..], run, number);
    SequencedAscends(after, run, number);
    SequencedKinds(before, run, number);
    SequencedKinds(after, run, number);
    Runs.PrefixLegal(Empty, Apply, Legal, ops, n);
    ReachableInv(ops[..n]);
    ReachableInv(ops);
    StatusShape(ops[..n], run);
    StatusShape(ops, run);
    hide Inv, Step, Ascending, Rising, LogMatches, TerminalLast, EndsWhenFinished, Sequenced;
    PipelineLogShape(LogAt(ops, n, run, number), At(ops[..n]).runs[run].status);
    PipelineLogShape(LogAt(ops, |ops|, run, number), At(ops).runs[run].status);
  }

  lemma RisingBefore(before: seq<RunEvent>, after: seq<RunEvent>, run: RunId, number: nat -> nat)
    requires before <= after && Rising(after, run, number)
    ensures Rising(before, run, number)
  {
    assert forall i :: 0 <= i < |before| ==> before[i] == after[i];
  }

  /** A read of the pipeline at one point of a run. */
  ghost predicate ReadAt(v: View, ops: seq<Op>, n: nat, run: RunId, number: nat -> nat) {
    n <= |ops| && run in At(ops[..n]).runs && v.log == LogAt(ops, n, run, number)
        && v.run == Some(At(ops[..n]).runs[run].status)
  }

  /** A connection's reads: taken at successive points of a run of the pipeline, until retention removes the run. */
  ghost predicate ReadsOf(views: seq<View>, ops: seq<Op>, ns: seq<nat>, run: RunId, number: nat -> nat) {
    && |ns| <= |views|
    && (forall i :: 0 <= i < |ns| ==> ReadAt(views[i], ops, ns[i], run, number))
    && (forall i, j :: 0 <= i < j < |ns| ==> ns[i] <= ns[j])
    && (forall i :: |ns| <= i < |views| ==> views[i].run.None? && views[i].log == [])
  }

  /**
   * Such reads are all the stream needs: with `all` the log at the end, every request over them is served
   * correctly.
   */
  lemma PipelineReads(views: seq<View>, ops: seq<Op>, ns: seq<nat>, closing: nat, run: RunId, number: nat -> nat)
    requires LegalOps(ops) && Rising(At(ops).events, run, number) && closing <= |ops| && run in At(ops[..closing]).runs
    requires ReadsOf(views, ops, ns, run, number) && forall i :: 0 <= i < |ns| ==> ns[i] <= closing
    ensures var all, closed := LogAt(ops, |ops|, run, number), |LogAt(ops, closing, run, number)|;
            && Ascending(all) && TerminalLast(all) && closed <= |all| && Reads(views, all[0..closed])
  {
    hide Rising, LogAt, EndsWhenFinished, Ascending, TerminalLast;
    PipelineLog(ops, closing, run, number);
    var all, last := LogAt(ops, |ops|, run, number), LogAt(ops, closing, run, number);
    assert all[0..|last|] == last;
    forall i | 0 <= i < |ns| ensures ViewOf(views[i], last) {
      assert ReadAt(views[i], ops, ns[i], run, number);
      LogsInOrder(ops, ns[i], closing, run, number);
      PipelineLog(ops, ns[i], run, number);
    }
    forall i, j | 0 <= i < j < |views| && views[j].run.Some?
      ensures views[i].run.Some? && |views[i].log| <= |views[j].log| {
      assert ReadAt(views[i], ops, ns[i], run, number) && ReadAt(views[j], ops, ns[j], run, number);
      LogsInOrder(ops, ns[i], ns[j], run, number);
    }
  }

  lemma EventsGrow(ops: seq<Op>, m: nat)
    requires LegalOps(ops) && m <= |ops|
    ensures At(ops[..m]).events <= At(ops).events
  {
    RunsOnlyAdvance(ops, m);
    hide Apply, Legal, RunsAdvance, CommandsStay;
  }

  lemma EventsInOrder(ops: seq<Op>, m: nat, n: nat)
    requires LegalOps(ops) && m <= n <= |ops|
    ensures At(ops[..m]).events <= At(ops[..n]).events
  {
    Runs.PrefixLegal(Empty, Apply, Legal, ops, n);
    EventsGrow(ops[..n], m);
    assert ops[..n][..m] == ops[..m];
  }

  lemma SequencedPrefix(before: seq<RunEvent>, after: seq<RunEvent>, run: RunId, number: nat -> nat)
    requires before <= after
    ensures Sequenced(before, run, number) <= Sequenced(after, run, number)
  {
    assert before + after[|before|..] == after;
    SequencedGrows(before, after[|before|..], run, number);
  }

  lemma LogsInOrder(ops: seq<Op>, m: nat, n: nat, run: RunId, number: nat -> nat)
    requires LegalOps(ops) && m <= n <= |ops|
    ensures LogAt(ops, m, run, number) <= LogAt(ops, n, run, number)
  {
    EventsInOrder(ops, m, n);
    hide At, Sequenced, LegalOps;
    SequencedPrefix(At(ops[..m]).events, At(ops[..n]).events, run, number);
  }

  lemma StatusShape(ops: seq<Op>, run: RunId)
    requires Inv(At(ops)) && run in At(ops).runs
    ensures LogMatches(LogOf(At(ops).events, run), At(ops).runs[run].status)
  {
    hide CommandsMatchRuns, FinishedTogether, JobsOnlyOfResults, LogMatches;
  }
}
