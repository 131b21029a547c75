/** The dashboard variant (frontend/src/App.jsx): one component that records
    pointer samples, draws a sliding displacement chart, keeps a short log feed
    and sends a single scan request once the pointer has rested. */
module DashboardApp {
  import opened Basics
  import opened Capture

  datatype Status = Analyzing | Human | Bot

  /** One point of the chart: when the move happened and how far it was. */
  datatype ChartPoint = ChartPoint(time: int, velocity: nat)

  const ChartSize: nat := 20
  const LogSize: nat := 5
  const QuietPeriod: int := 2500
  /** Verification needs strictly more stored samples than this. */
  const MinSamples: nat := 10

  const InitialLogs: seq<string> := ["System initialized...", "Waiting for input..."]
  const AnalyzingMessage: string := "Analyzing patterns..."
  const HumanMessage: string := "✅ User verified as Human"
  const BlockPrefix: string := "⚠️ BLOCK: "
  const FailureMessage: string := "❌ Connection Failed"

  // ---------------------------------------------------------------------------
  // Displacement: Math.round(Math.sqrt(dx² + dy²)) in integers

  function Square(a: int): (sq: nat)
  {
    a * a
  }

  /** `r` is `Math.round(Math.sqrt(d2))`: for a whole `d2 > 0`, round-half-up of the
      root is `r` exactly when `(r - 1/2)² <= d2 < (r + 1/2)²`, that is
      `r² - r < d2 <= r² + r`. */
  ghost predicate IsRoundedRoot(d2: nat, r: nat)
  {
    if d2 == 0 then r == 0 else r * r - r < d2 <= r * r + r
  }

  /** Search upwards from `r` for the rounded root of `d2`. */
  function RoundRootFrom(d2: nat, r: nat): (k: nat)
    requires 0 < d2 && 0 < r && r * r - r < d2
    ensures IsRoundedRoot(d2, k)
    decreases d2 - r
  {
    if d2 <= r * r + r then r
    else
      assert r <= r * r;
      RoundRootFrom(d2, r + 1)
  }

  function RoundRoot(d2: nat): (r: nat)
    ensures IsRoundedRoot(d2, r)
  {
    if d2 == 0 then 0 else RoundRootFrom(d2, 1)
  }

  /** Consecutive candidate roots leave no overlap: `lo² + lo <= hi² - hi` when `lo < hi`. */
  lemma RootGap(lo: nat, hi: nat)
    requires lo < hi
    ensures lo * lo + lo <= hi * hi - hi
  {
    assert hi * hi - hi == hi * (hi - 1);
    assert hi * (hi - 1) >= hi * lo;
    assert hi * lo >= (lo + 1) * lo;
    assert (lo + 1) * lo == lo * lo + lo;
  }

  /** The rounded root is unique, so `IsRoundedRoot` pins `RoundRoot` down. */
  lemma RoundedRootUnique(d2: nat, r1: nat, r2: nat)
    requires IsRoundedRoot(d2, r1) && IsRoundedRoot(d2, r2)
    ensures r1 == r2
  {
    if d2 != 0 {
      if r1 < r2 {
        RootGap(r1, r2);
      } else if r2 < r1 {
        RootGap(r2, r1);
      }
    }
  }

  /** A whole distance is reported unchanged (a 3-4-5 move shows as 5). */
  lemma RoundRootOfSquare(k: nat)
    ensures RoundRoot(k * k) == k
  {
    assert IsRoundedRoot(k * k, k);
    RoundedRootUnique(k * k, k, RoundRoot(k * k));
  }

  /** The speed shown for a move to (x, y): 0 when nothing is stored yet,
      otherwise the rounded distance to the newest STORED sample. */
  function Displacement(stored: seq<Sample>, x: int, y: int): (speed: nat)
    ensures stored == [] ==> speed == 0
    ensures stored != [] ==>
      var last := stored[|stored| - 1];
      IsRoundedRoot(Square(x - last.x) + Square(y - last.y), speed)
  {
    if stored == [] then 0
    else
      var last := stored[|stored| - 1];
      RoundRoot(Square(x - last.x) + Square(y - last.y))
  }

  /** Once the buffer has frozen, every displacement is measured from the 50th move. */
  lemma FrozenDisplacement(moves: seq<Sample>, x: int, y: int)
    requires |moves| >= Capacity
    ensures Displacement(Take(moves, Capacity), x, y)
         == RoundRoot(Square(x - moves[Capacity - 1].x) + Square(y - moves[Capacity - 1].y))
  {
  }

  // ---------------------------------------------------------------------------
  // Chart window: `[...prev, point].slice(-20)`

  /** The last `n` elements of `s`, or all of `s` when it is shorter. */
  function Window<T>(s: seq<T>, n: nat): (r: seq<T>)
    ensures |r| == Min(|s|, n)
    ensures s[..|s| - |r|] + r == s
  {
    if |s| <= n then s else s[|s| - n..]
  }

  /** Sliding the window by one point equals taking the window of the whole history. */
  lemma {:induction false} WindowSlide<T>(s: seq<T>, p: T, n: nat)
    ensures Window(Window(s, n) + [p], n) == Window(s + [p], n)
  {
    var w := Window(s, n);
    if |s| + 1 <= n {
      assert w == s;
    } else if |s| <= n {
      assert w == s;
      assert Window(w + [p], n) == (s + [p])[|s| + 1 - n..];
    } else {
      assert w + [p] == (s + [p])[|s| - n..];
      assert Window(w + [p], n) == (s + [p])[|s| + 1 - n..];
    }
  }

  // ---------------------------------------------------------------------------
  // Log feed: `[msg, ...prev].slice(0, 5)`

  /** `addLog`: the new message first, then as many older entries as fit. */
  function AddLog(logs: seq<string>, msg: string): (r: seq<string>)
    ensures |r| == Min(|logs| + 1, LogSize)
    ensures r[0] == msg && r[1..] <= logs
  {
    Take([msg] + logs, LogSize)
  }

  /** Logging into the newest `LogSize` entries of a history gives the newest
      `LogSize` entries of the longer history: the cap never reorders or
      resurrects anything. */
  lemma {:induction false} AddLogNewest(history: seq<string>, msg: string)
    ensures AddLog(Take(history, LogSize), msg) == Take([msg] + history, LogSize)
  {
    if |history| >= LogSize {
      assert ([msg] + history[..LogSize])[..LogSize] == ([msg] + history)[..LogSize];
    }
  }

  /** The line logged for a scan response; `reason` is the response's reason as the
      template literal renders it. */
  function ResponseMessage(isHuman: bool, reason: string): (msg: string)
    ensures isHuman ==> msg == HumanMessage
    ensures !isHuman ==> BlockPrefix <= msg && msg[|BlockPrefix|..] == reason
  {
    if isHuman then HumanMessage else BlockPrefix + reason
  }

  // ---------------------------------------------------------------------------
  // The component

  class App {
    var status: Status
    var mouseData: seq<Sample>
    var chartData: seq<ChartPoint>
    var logs: seq<string>
    /** The `hasSentData` ref: set before the request, never cleared. */
    var hasSentData: bool
    /** The pending 2500 ms timer, as the instant it is due; `None` once it has fired. */
    var deadline: Option<int>

    /** Every pointer move seen so far, stored or not. */
    ghost var moves: seq<Sample>
    /** Every chart point computed so far, one per move. */
    ghost var points: seq<ChartPoint>
    /** Every log line so far, newest first, ending with the initial lines. */
    ghost var history: seq<string>
    ghost var mounted: int
    /** Scan requests issued so far. */
    ghost var requests: nat
    /** A scan request awaits its response or failure. */
    ghost var inFlight: bool

    ghost predicate Valid()
      reads this
    {
      BufferValid() && ChartValid() && FeedValid() && TimerValid() && SessionValid()
    }

    /** The stored buffer is the first `Capacity` moves, in arrival order. */
    ghost predicate BufferValid()
      reads this`mouseData, this`moves
    {
      mouseData == Take(moves, Capacity)
    }

    /** The chart shows the most recent `ChartSize` of the points, one per move. */
    ghost predicate ChartValid()
      reads this`chartData, this`points, this`moves
    {
      |points| == |moves| && ChartShowsLatest()
    }

    ghost predicate ChartShowsLatest()
      reads this`chartData, this`points
    {
      chartData == Window(points, ChartSize)
    }

    /** The feed shows the newest `LogSize` log lines. */
    ghost predicate FeedValid()
      reads this`logs, this`history
    {
      logs == Take(history, LogSize)
    }

    /** A pending timer is due one quiet period after the stored buffer last changed. */
    ghost predicate TimerValid()
      reads this`deadline, this`mouseData, this`mounted
    {
      deadline.Some? ==> deadline.value == LastChange(mouseData, mounted) + QuietPeriod
    }

    /** At most one request, issued exactly when the flag was set; the status
        leaves `Analyzing` only through that request's response. */
    ghost predicate SessionValid()
      reads this`requests, this`hasSentData, this`inFlight, this`status
    {
      && requests == (if hasSentData then 1 else 0)
      && (inFlight ==> hasSentData && status == Analyzing)
      && (!hasSentData ==> status == Analyzing)
    }

    /** The timer is due at `now`. */
    predicate Due(now: int)
      reads this
    {
      deadline.Some? && deadline.value <= now
    }

    /** Mounting at `now`: initial state, and the effect on `mouseData` schedules its first timer. */
    constructor (now: int)
      ensures Valid()
      ensures status == Analyzing && mouseData == [] && chartData == [] && logs == InitialLogs
      ensures !hasSentData && deadline == Some(now + QuietPeriod)
      ensures moves == [] && points == [] && history == InitialLogs
      ensures mounted == now && requests == 0 && !inFlight
    {
      status := Analyzing;
      mouseData := [];
      chartData := [];
      logs := InitialLogs;
      hasSentData := false;
      deadline := Some(now + QuietPeriod);
      moves := [];
      points := [];
      history := InitialLogs;
      mounted := now;
      requests := 0;
      inFlight := false;
    }

    /** `handleMouseMove` at `now`, followed by the timer effect when the stored buffer changed. */
    method HandleMouseMove(x: int, y: int, now: int)
      requires Valid()
      modifies this`mouseData, this`chartData, this`deadline, this`moves, this`points
      ensures Valid()
      ensures moves == old(moves) + [Sample(x, y, now)]
      ensures mouseData == Record(old(mouseData), Sample(x, y, now))
      ensures points == old(points) + [ChartPoint(now, Displacement(old(mouseData), x, y))]
      ensures deadline == if |old(mouseData)| < Capacity then Some(now + QuietPeriod) else old(deadline)
      ensures |mouseData| == Min(|moves|, Capacity) && |chartData| == Min(|moves|, ChartSize)
      ensures status == old(status) && logs == old(logs) && history == old(history)
      ensures hasSentData == old(hasSentData) && requests == old(requests) && inFlight == old(inFlight)
      ensures mounted == old(mounted)
    {
      var p := ChartPoint(now, Displacement(mouseData, x, y));
      Store(Sample(x, y, now));
      Plot(p);
    }

    /** The `setMouseData` half of a move, with the timer effect it triggers. */
    method Store(s: Sample)
      requires BufferValid() && TimerValid()
      modifies this`mouseData, this`deadline, this`moves
      ensures BufferValid() && TimerValid()
      ensures moves == old(moves) + [s] && mouseData == Record(old(mouseData), s)
      ensures deadline == if |old(mouseData)| < Capacity then Some(s.time + QuietPeriod) else old(deadline)
    {
      if |mouseData| < Capacity {
        // the effect on [mouseData] clears the old timer and sets a new one
        deadline := Some(s.time + QuietPeriod);
      }
      RecordKeepsFirst(moves, s);
      mouseData := Record(mouseData, s);
      moves := moves + [s];
    }

    /** The `setChartData` half of a move. */
    method Plot(p: ChartPoint)
      requires ChartShowsLatest()
      modifies this`chartData, this`points
      ensures ChartShowsLatest() && points == old(points) + [p]
    {
      WindowSlide(points, p, ChartSize);
      chartData := Window(chartData + [p], ChartSize);
      points := points + [p];
    }

    /** `addLog` as a step of the component. */
    method Log(msg: string)
      requires FeedValid()
      modifies this`logs, this`history
      ensures FeedValid()
      ensures logs == AddLog(old(logs), msg) && history == [msg] + old(history)
    {
      AddLogNewest(history, msg);
      logs := AddLog(logs, msg);
      history := [msg] + history;
    }

    /** `verifyUser` up to the `fetch`: the single-shot guard, the log line and the payload.
        `trap` is the honeypot field, `None` when the page has none. */
    method StartVerify(trap: Option<string>) returns (sent: Option<Payload>)
      requires Valid()
      modifies this`hasSentData, this`logs, this`history, this`requests, this`inFlight
      ensures Valid()
      ensures sent.Some? <==> !old(hasSentData)
      ensures sent.Some? ==> sent.value == Payload(mouseData, [], HoneypotValue(trap)) && inFlight
      ensures sent.None? ==> inFlight == old(inFlight)
      ensures hasSentData && requests == 1
      ensures logs == if sent.Some? then AddLog(old(logs), AnalyzingMessage) else old(logs)
      ensures history == if sent.Some? then [AnalyzingMessage] + old(history) else old(history)
      ensures status == old(status) && mouseData == old(mouseData) && chartData == old(chartData)
      ensures deadline == old(deadline) && moves == old(moves) && points == old(points)
      ensures mounted == old(mounted)
    {
      if hasSentData {
        sent := None;
      } else {
        hasSentData := true;
        Log(AnalyzingMessage);
        requests := requests + 1;
        inFlight := true;
        sent := Some(Payload(mouseData, [], HoneypotValue(trap)));
      }
    }

    /** The timer firing at `now`, if it is due: it verifies when more than
        `MinSamples` samples are stored. */
    method Tick(now: int, trap: Option<string>) returns (sent: Option<Payload>)
      requires Valid()
      modifies this`deadline, this`hasSentData, this`logs, this`history, this`requests, this`inFlight
      ensures Valid()
      ensures sent.Some? <==> old(Due(now)) && |mouseData| > MinSamples && !old(hasSentData)
      ensures sent.Some? ==> sent.value == Payload(mouseData, [], HoneypotValue(trap))
      ensures sent.Some? ==> now >= LastChange(mouseData, mounted) + QuietPeriod
      ensures deadline == if old(Due(now)) then None else old(deadline)
      ensures hasSentData == (old(hasSentData) || sent.Some?) && requests <= 1
      ensures logs == if sent.Some? then AddLog(old(logs), AnalyzingMessage) else old(logs)
      ensures history == if sent.Some? then [AnalyzingMessage] + old(history) else old(history)
      ensures inFlight == (old(inFlight) || sent.Some?)
      ensures status == old(status) && mouseData == old(mouseData) && chartData == old(chartData)
      ensures moves == old(moves) && points == old(points) && mounted == old(mounted)
    {
      sent := None;
      if Due(now) {
        deadline := None;
        if |mouseData| > MinSamples {
          sent := StartVerify(trap);
        }
      }
    }

    /** The scan answered: `is_human` true means human, anything else bot with its reason logged. */
    method OnResponse(isHuman: bool, reason: string)
      requires Valid() && inFlight
      modifies this`status, this`logs, this`history, this`inFlight
      ensures Valid() && !inFlight
      ensures status == if isHuman then Human else Bot
      ensures logs == AddLog(old(logs), ResponseMessage(isHuman, reason))
      ensures history == [ResponseMessage(isHuman, reason)] + old(history)
      ensures hasSentData && requests == 1
      ensures mouseData == old(mouseData) && chartData == old(chartData) && deadline == old(deadline)
      ensures moves == old(moves) && points == old(points) && mounted == old(mounted)
    {
      status := if isHuman then Human else Bot;
      Log(ResponseMessage(isHuman, reason));
      inFlight := false;
      assert BufferValid() && ChartValid() && TimerValid();
    }

    /** The request failed: only a log line; the status stays `Analyzing` and nothing is retried. */
    method OnFailure()
      requires Valid() && inFlight
      modifies this`logs, this`history, this`inFlight
      ensures Valid() && !inFlight
      ensures status == Analyzing
      ensures logs == AddLog(old(logs), FailureMessage)
      ensures history == [FailureMessage] + old(history)
      ensures hasSentData && requests == 1
      ensures mouseData == old(mouseData) && chartData == old(chartData) && deadline == old(deadline)
      ensures moves == old(moves) && points == old(points) && mounted == old(mounted)
    {
      Log(FailureMessage);
      inFlight := false;
      assert BufferValid() && ChartValid() && TimerValid();
    }
  }

  /** Eleven samples at (x, y), taken every 100 ms from 0 to 1000 ms, in order. */
  function ElevenSamples(x: int, y: int): seq<Sample>
  {
    [Sample(x, y, 0), Sample(x, y, 100), Sample(x, y, 200), Sample(x, y, 300),
     Sample(x, y, 400), Sample(x, y, 500), Sample(x, y, 600), Sample(x, y, 700),
     Sample(x, y, 800), Sample(x, y, 900), Sample(x, y, 1000)]
  }

  /** Mount at 0, then one move at (x, y) at once: the first move draws a zero-length point. */
  method MountAndMoveOnce(x: int, y: int) returns (app: App)
    ensures fresh(app) && app.Valid() && app.mounted == 0
    ensures app.mouseData == [Sample(x, y, 0)] && app.chartData == [ChartPoint(0, 0)]
    ensures app.deadline == Some(2500) && !app.hasSentData
  {
    app := new App(0);
    app.HandleMouseMove(x, y, 0);
  }

  /** Mount at 0, then three moves at (x, y), 100 ms apart. */
  method MountAndMoveThree(x: int, y: int) returns (app: App)
    ensures fresh(app) && app.Valid() && app.mounted == 0
    ensures app.mouseData == [Sample(x, y, 0), Sample(x, y, 100), Sample(x, y, 200)]
    ensures app.deadline == Some(2700) && !app.hasSentData
  {
    app := MountAndMoveOnce(x, y);
    app.HandleMouseMove(x, y, 100);
    app.HandleMouseMove(x, y, 200);
  }

  /** Mount at 0, then six moves at (x, y), 100 ms apart. */
  method MountAndMoveSix(x: int, y: int) returns (app: App)
    ensures fresh(app) && app.Valid() && app.mounted == 0
    ensures app.mouseData == [Sample(x, y, 0), Sample(x, y, 100), Sample(x, y, 200),
                              Sample(x, y, 300), Sample(x, y, 400), Sample(x, y, 500)]
    ensures app.deadline == Some(3000) && !app.hasSentData
  {
    app := MountAndMoveThree(x, y);
    app.HandleMouseMove(x, y, 300);
    app.HandleMouseMove(x, y, 400);
    app.HandleMouseMove(x, y, 500);
  }

  /** Mount at 0, then eight moves at (x, y), 100 ms apart. */
  method MountAndMoveEight(x: int, y: int) returns (app: App)
    ensures fresh(app) && app.Valid() && app.mounted == 0
    ensures app.mouseData == [Sample(x, y, 0), Sample(x, y, 100), Sample(x, y, 200), Sample(x, y, 300),
                              Sample(x, y, 400), Sample(x, y, 500), Sample(x, y, 600), Sample(x, y, 700)]
    ensures app.deadline == Some(3200) && !app.hasSentData
  {
    app := MountAndMoveSix(x, y);
    app.HandleMouseMove(x, y, 600);
    app.HandleMouseMove(x, y, 700);
  }

  /** Mount at 0, then eleven moves at (x, y), 100 ms apart. */
  method MountAndMoveEleven(x: int, y: int) returns (app: App)
    ensures fresh(app) && app.Valid() && app.mounted == 0
    ensures app.mouseData == ElevenSamples(x, y)
    ensures app.deadline == Some(3500) && !app.hasSentData
  {
    app := MountAndMoveEight(x, y);
    app.HandleMouseMove(x, y, 800);
    app.HandleMouseMove(x, y, 900);
    app.HandleMouseMove(x, y, 1000);
  }

  /** Eleven moves up to 1000 ms, then silence: nothing at 3499 ms, one scan at
      3500 ms carrying all eleven samples and no typing intervals; a later move
      re-arms the timer, but its firing sends nothing. */
  method ElevenMovesThenQuiet(x: int, y: int) returns (early: Option<Payload>, sent: Option<Payload>, again: Option<Payload>)
    ensures early.None? && again.None?
    ensures sent == Some(Payload(ElevenSamples(x, y), [], ""))
  {
    var app := MountAndMoveEleven(x, y);
    early := app.Tick(3499, None);
    sent := app.Tick(3500, None);
    app.HandleMouseMove(x, y, 4000);
    again := app.Tick(6500, None);
  }
}
