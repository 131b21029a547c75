/** The minimal variant (frontend/src/app.js): records pointer samples and
    keydown times, and sends a single scan request carrying the typing
    intervals once the pointer has rested. */
module MinimalApp {
  import opened Basics
  import opened Capture

  /** The status line; `Label` gives the text shown. */
  datatype Status = Analyzing | HumanVerified | BotDetected | ConnectionError

  function Label(s: Status): (text: string)
  {
    match s
    case Analyzing => "Analyzing..."
    case HumanVerified => "✅ Human Verified"
    case BotDetected => "\U{1F916} Bot Detected"
    case ConnectionError => "Error connecting to server"
  }

  const QuietPeriod: int := 2000
  /** Verification needs strictly more stored samples than this. */
  const MinSamples: nat := 5

  // ---------------------------------------------------------------------------
  // Typing intervals: `typingData.slice(1).map((time, i) => time - typingData[i])`

  /** The gaps between successive keydown timestamps, written as a recursion on
      the list; `IntervalsAt` states that gap `i` is what the `map` callback
      computes for index `i`. */
  function Intervals(times: seq<int>): (gaps: seq<int>)
    ensures |gaps| == if times == [] then 0 else |times| - 1
    decreases |times|
  {
    if |times| <= 1 then [] else [times[1] - times[0]] + Intervals(times[1..])
  }

  /** The timestamps rebuilt from the first one and the gaps: a running sum. */
  function Rebuild(start: int, gaps: seq<int>): (times: seq<int>)
    ensures |times| == |gaps| + 1 && times[0] == start
    decreases |gaps|
  {
    [start] + (if gaps == [] then [] else Rebuild(start + gaps[0], gaps[1..]))
  }

  /** Each gap is the difference of the two keydowns it separates. */
  lemma {:induction false} IntervalsAt(times: seq<int>, i: nat)
    requires i + 1 < |times|
    ensures Intervals(times)[i] == times[i + 1] - times[i]
    decreases i
  {
    if i > 0 {
      IntervalsAt(times[1..], i - 1);
    }
  }

  /** The intervals lose nothing but the absolute start: together with the first
      timestamp they give back every timestamp. */
  lemma {:induction false} RebuildIntervals(times: seq<int>)
    requires times != []
    ensures Rebuild(times[0], Intervals(times)) == times
    decreases |times|
  {
    if |times| == 1 {
      assert times == [times[0]];
    } else {
      RebuildIntervals(times[1..]);
      assert times == [times[0]] + times[1..];
    }
  }

  /** A keydown adds exactly one interval, the gap since the previous keydown. */
  lemma {:induction false} IntervalsSnoc(times: seq<int>, t: int)
    requires times != []
    ensures Intervals(times + [t]) == Intervals(times) + [t - times[|times| - 1]]
    decreases |times|
  {
    if |times| == 1 {
      assert times + [t] == [times[0], t];
    } else {
      assert (times + [t])[1..] == times[1..] + [t];
      IntervalsSnoc(times[1..], t);
    }
  }

  /** With a clock that never runs back, no interval is negative. */
  lemma IntervalsNonNegative(times: seq<int>)
    requires forall i, j :: 0 <= i <= j < |times| ==> times[i] <= times[j]
    ensures forall k :: 0 <= k < |Intervals(times)| ==> Intervals(times)[k] >= 0
  {
    forall k | 0 <= k < |Intervals(times)|
      ensures Intervals(times)[k] >= 0
    {
      IntervalsAt(times, k);
    }
  }

  // ---------------------------------------------------------------------------
  // The component

  class App {
    var status: Status
    var mouseData: seq<Sample>
    var typingData: seq<int>
    /** The `hasSentData` ref: set before the request, never cleared. */
    var hasSentData: bool
    /** The pending 2000 ms timer, as the instant it is due; `None` once it has fired. */
    var deadline: Option<int>
    /** The `typingData` of the render that armed the pending timer. The timer's
        callback closes over that render's `verifyUser`, so this is the typing
        data a scan sends; keydowns after it are not seen. */
    var timerTyping: seq<int>

    /** Every pointer move seen so far, stored or not. */
    ghost var moves: seq<Sample>
    ghost var mounted: int
    /** Scan requests issued so far. */
    ghost var requests: nat
    /** A scan request awaits its response or failure. */
    ghost var inFlight: bool

    ghost predicate Valid()
      reads this
    {
      BufferValid() && TimerValid() && ClosureValid() && SessionValid()
    }

    /** The closure's typing data is an earlier state of the growing list. */
    ghost predicate ClosureValid()
      reads this`timerTyping, this`typingData
    {
      timerTyping <= typingData
    }

    /** The stored buffer is the first `Capacity` moves, in arrival order. */
    ghost predicate BufferValid()
      reads this`mouseData, this`moves
    {
      mouseData == Take(moves, Capacity)
    }

    /** A pending timer is due one quiet period after the stored buffer last changed. */
    ghost predicate TimerValid()
      reads this`deadline, this`mouseData, this`mounted
    {
      deadline.Some? ==> deadline.value == LastChange(mouseData, mounted) + QuietPeriod
    }

    /** At most one request, issued exactly when the flag was set; the status
        leaves `Analyzing` only through that request's outcome. */
    ghost predicate SessionValid()
      reads this`requests, this`hasSentData, this`inFlight, this`status
    {
      && requests == (if hasSentData then 1 else 0)
      && (inFlight ==> hasSentData && status == Analyzing)
      && (!hasSentData ==> status == Analyzing)
    }

    /** The timer is due at `now`. */
    predicate Due(now: int)
      reads this
    {
      deadline.Some? && deadline.value <= now
    }

    /** Mounting at `now`: initial state, and the effect on `mouseData` schedules its first timer. */
    constructor (now: int)
      ensures Valid()
      ensures status == Analyzing && mouseData == [] && typingData == []
      ensures !hasSentData && deadline == Some(now + QuietPeriod) && timerTyping == []
      ensures moves == [] && mounted == now && requests == 0 && !inFlight
    {
      status := Analyzing;
      mouseData := [];
      typingData := [];
      hasSentData := false;
      deadline := Some(now + QuietPeriod);
      timerTyping := [];
      moves := [];
      mounted := now;
      requests := 0;
      inFlight := false;
    }

    /** `handleMouseMove` at `now`, followed by the timer effect when the stored buffer changed. */
    method HandleMouseMove(x: int, y: int, now: int)
      requires Valid()
      modifies this`mouseData, this`deadline, this`timerTyping, this`moves
      ensures Valid()
      ensures moves == old(moves) + [Sample(x, y, now)]
      ensures mouseData == Record(old(mouseData), Sample(x, y, now))
      ensures |mouseData| == Min(|moves|, Capacity)
      ensures deadline == if |old(mouseData)| < Capacity then Some(now + QuietPeriod) else old(deadline)
      ensures timerTyping == if |old(mouseData)| < Capacity then old(typingData) else old(timerTyping)
      ensures status == old(status) && typingData == old(typingData) && hasSentData == old(hasSentData)
      ensures requests == old(requests) && inFlight == old(inFlight) && mounted == old(mounted)
    {
      var s := Sample(x, y, now);
      if |mouseData| < Capacity {
        // the effect on [mouseData] clears the old timer and sets a new one,
        // closing over this render's typing data
        deadline := Some(now + QuietPeriod);
        timerTyping := typingData;
      }
      RecordKeepsFirst(moves, s);
      mouseData := Record(mouseData, s);
      moves := moves + [s];
    }

    /** `handleKeyDown` at `now`: one more timestamp, with no bound. It does not touch the timer. */
    method HandleKeyDown(now: int)
      requires Valid()
      modifies this`typingData
      ensures Valid()
      ensures typingData == old(typingData) + [now]
    {
      assert timerTyping <= typingData + [now];
      typingData := typingData + [now];
    }

    /** `verifyUser` up to the `fetch`: the single-shot guard and the payload.
        `typing` is the `typingData` of the render the call comes from; the
        flag is a ref and the honeypot is read from the page, so both are live.
        `trap` is the honeypot field, `None` when the page has none. */
    method StartVerify(typing: seq<int>, trap: Option<string>) returns (sent: Option<Payload>)
      requires Valid()
      modifies this`hasSentData, this`requests, this`inFlight
      ensures Valid()
      ensures sent.Some? <==> !old(hasSentData)
      ensures sent.Some? ==> sent.value == Payload(mouseData, Intervals(typing), HoneypotValue(trap)) && inFlight
      ensures sent.None? ==> inFlight == old(inFlight)
      ensures hasSentData && requests == 1
      ensures status == old(status) && mouseData == old(mouseData) && typingData == old(typingData)
      ensures deadline == old(deadline) && timerTyping == old(timerTyping)
      ensures moves == old(moves) && mounted == old(mounted)
    {
      if hasSentData {
        sent := None;
      } else {
        hasSentData := true;
        requests := requests + 1;
        inFlight := true;
        sent := Some(Payload(mouseData, Intervals(typing), HoneypotValue(trap)));
      }
    }

    /** The timer firing at `now`, if it is due: it verifies when more than
        `MinSamples` samples are stored, with the typing data its closure saw. */
    method Tick(now: int, trap: Option<string>) returns (sent: Option<Payload>)
      requires Valid()
      modifies this`deadline, this`hasSentData, this`requests, this`inFlight
      ensures Valid()
      ensures sent.Some? <==> old(Due(now)) && |mouseData| > MinSamples && !old(hasSentData)
      ensures sent.Some? ==> sent.value == Payload(mouseData, Intervals(timerTyping), HoneypotValue(trap))
      ensures sent.Some? ==> timerTyping <= typingData
      ensures sent.Some? ==> now >= LastChange(mouseData, mounted) + QuietPeriod
      ensures deadline == if old(Due(now)) then None else old(deadline)
      ensures hasSentData == (old(hasSentData) || sent.Some?) && requests <= 1
      ensures inFlight == (old(inFlight) || sent.Some?)
      ensures status == old(status) && mouseData == old(mouseData) && typingData == old(typingData)
      ensures timerTyping == old(timerTyping) && moves == old(moves) && mounted == old(mounted)
    {
      sent := None;
      if Due(now) {
        deadline := None;
        if |mouseData| > MinSamples {
          sent := StartVerify(timerTyping, trap);
        }
      }
    }

    /** The scan answered: `is_human` true shows "Human Verified", anything else "Bot Detected". */
    method OnResponse(isHuman: bool)
      requires Valid() && inFlight
      modifies this`status, this`inFlight
      ensures Valid() && !inFlight
      ensures status == if isHuman then HumanVerified else BotDetected
      ensures Label(status) == if isHuman then "✅ Human Verified" else "\U{1F916} Bot Detected"
      ensures hasSentData && requests == 1
      ensures mouseData == old(mouseData) && typingData == old(typingData) && deadline == old(deadline)
      ensures timerTyping == old(timerTyping)
      ensures moves == old(moves) && mounted == old(mounted)
    {
      status := if isHuman then HumanVerified else BotDetected;
      inFlight := false;
    }

    /** The request failed: unlike the dashboard, the status changes to the error
        line; nothing is retried. */
    method OnFailure()
      requires Valid() && inFlight
      modifies this`status, this`inFlight
      ensures Valid() && !inFlight
      ensures status == ConnectionError && Label(status) == "Error connecting to server"
      ensures hasSentData && requests == 1
      ensures mouseData == old(mouseData) && typingData == old(typingData) && deadline == old(deadline)
      ensures timerTyping == old(timerTyping)
      ensures moves == old(moves) && mounted == old(mounted)
    {
      status := ConnectionError;
      inFlight := false;
    }
  }

  /** Six samples at (x, y), taken every 100 ms from 0 to 500 ms, in order. */
  function SixSamples(x: int, y: int): seq<Sample>
  {
    [Sample(x, y, 0), Sample(x, y, 100), Sample(x, y, 200),
     Sample(x, y, 300), Sample(x, y, 400), Sample(x, y, 500)]
  }

  /** Mount at 0, then three moves at (x, y) 100 ms apart and no keydown. */
  method MountAndMoveThree(x: int, y: int) returns (app: App)
    ensures fresh(app) && app.Valid() && app.mounted == 0 && !app.hasSentData
    ensures app.mouseData == SixSamples(x, y)[..3] && app.deadline == Some(2200)
    ensures app.typingData == [] && app.timerTyping == []
  {
    app := new App(0);
    app.HandleMouseMove(x, y, 0);
    app.HandleMouseMove(x, y, 100);
    app.HandleMouseMove(x, y, 200);
  }

  /** Mount at 0 and three moves, then a keydown at 250 ms, a move at 300 ms
      and a keydown at 380 ms. */
  method MountMoveAndTypeFour(x: int, y: int) returns (app: App)
    ensures fresh(app) && app.Valid() && app.mounted == 0 && !app.hasSentData
    ensures app.mouseData == SixSamples(x, y)[..4] && app.deadline == Some(2300)
    ensures app.typingData == [250, 380] && app.timerTyping == [250]
  {
    app := MountAndMoveThree(x, y);
    app.HandleKeyDown(250);
    app.HandleMouseMove(x, y, 300);
    app.HandleKeyDown(380);
  }

  /** Mount at 0, six moves at (x, y) 100 ms apart, with keydowns at 250, 380
      and 450 ms between them and one more at 600 ms, after the last move. */
  method MountMoveAndType(x: int, y: int) returns (app: App)
    ensures fresh(app) && app.Valid() && app.mounted == 0 && !app.hasSentData
    ensures app.mouseData == SixSamples(x, y) && app.deadline == Some(2500)
    ensures app.typingData == [250, 380, 450, 600] && app.timerTyping == [250, 380, 450]
  {
    app := MountMoveAndTypeFour(x, y);
    app.HandleMouseMove(x, y, 400);
    app.HandleKeyDown(450);
    app.HandleMouseMove(x, y, 500);
    app.HandleKeyDown(600);
  }

  /** The timer fires at 2500 ms with the six samples, the gaps of the keydowns
      it saw, [130, 70], and an empty trap value; the keydown at 600 ms is not
      sent. After a failure and another move, the re-armed timer sends nothing. */
  method SixMovesAndTyping(x: int, y: int) returns (sent: Option<Payload>, again: Option<Payload>)
    ensures sent == Some(Payload(SixSamples(x, y), [130, 70], ""))
    ensures again.None?
  {
    var app := MountMoveAndType(x, y);
    sent := app.Tick(2500, None);
    assert Intervals([250, 380, 450]) == [130, 70];
    app.OnFailure();
    app.HandleMouseMove(x, y, 3000);
    again := app.Tick(5000, None);
  }
}
