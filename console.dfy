/**
  The operator console of app/page.tsx: the operator types a number, and
  `handleShow` validates it, clears the display, and through two timer
  callbacks reveals it (appending it to the history) and then settles the
  animation. `handleClear` empties the history after a confirmation.

  The two `setTimeout` callbacks are explicit steps. Callbacks of equal
  delay run in the order they were queued, so the pending reveals are a
  queue, oldest first; the pending settles only switch the animation off,
  so a count of them is enough. `window.confirm` is a `bool` argument.
 */
module Console {
  import opened Wrappers
  import Decimal

  /** How `handleShow` ends: silently ignored (not a number, or below 1),
      refused with the repeat warning, or started for `num`. */
  datatype ShowOutcome = Ignored | RepeatWarning | Started(num: int)

  /** The two guards of `handleShow`, applied to the parsed input. */
  function Judge(parsed: Option<int>, allowRepeat: bool, drawn: seq<int>): (r: ShowOutcome)
    ensures r.Ignored? <==> parsed.None? || parsed.value < 1
    ensures r.RepeatWarning? <==> parsed.Some? && parsed.value >= 1 && !allowRepeat && parsed.value in drawn
    ensures r.Started? <==> parsed.Some? && parsed.value >= 1 && (allowRepeat || parsed.value !in drawn)
    ensures r.Started? ==> parsed == Some(r.num) && r.num >= 1
  {
    if parsed.None? || parsed.value < 1 then Ignored
    else if !allowRepeat && parsed.value in drawn then RepeatWarning
    else Started(parsed.value)
  }

  // ---------------------------------------------------------------------
  // The record kept in local storage

  /** The parsed `bingo-history` record; either field may be missing. */
  datatype SavedRecord = SavedRecord(numbers: Option<seq<int>>, allowRepeat: Option<bool>)

  /** The record the save effect writes for the current state. */
  function SaveRecord(drawn: seq<int>, allowRepeat: bool): (r: SavedRecord)
    ensures r.numbers.Some? && r.allowRepeat.Some?
  {
    SavedRecord(Some(drawn), Some(allowRepeat))
  }

  /** `parsed.numbers || []`: a stored array, or the empty history. */
  function LoadedNumbers(rec: SavedRecord): (r: seq<int>)
    ensures rec.numbers.None? ==> r == []
    ensures rec.numbers.Some? ==> r == rec.numbers.value
  {
    rec.numbers.GetOr([])
  }

  /** `parsed.allowRepeat || false`: the stored flag, or false. */
  function LoadedAllowRepeat(rec: SavedRecord): (r: bool)
    ensures r <==> rec.allowRepeat == Some(true)
  {
    rec.allowRepeat.GetOr(false)
  }

  /** Loading what was saved gives back the saved history and flag. */
  lemma LoadSavedRecord(drawn: seq<int>, allowRepeat: bool)
    ensures LoadedNumbers(SaveRecord(drawn, allowRepeat)) == drawn
    ensures LoadedAllowRepeat(SaveRecord(drawn, allowRepeat)) == allowRepeat
  {
  }

  // ---------------------------------------------------------------------
  // What happened to the history, as a log of events

  datatype Event = Loaded(numbers: seq<int>) | Accepted(num: int) | Revealed(num: int) | Cleared

  /** An event that replaces the whole history. */
  predicate IsReset(e: Event) {
    e.Loaded? || e.Cleared?
  }

  /** The history a reset leaves. */
  function ResetBase(e: Event): seq<int>
    requires IsReset(e)
  {
    if e.Loaded? then e.numbers else []
  }

  predicate NoReset(log: seq<Event>) {
    forall i :: 0 <= i < |log| ==> !IsReset(log[i])
  }

  /** The history the events leave, replayed one state change at a time. */
  function Replay(log: seq<Event>): seq<int>
  {
    if log == [] then []
    else
      var h := Replay(log[..|log| - 1]);
      match log[|log| - 1]
      case Loaded(ns) => ns
      case Accepted(_) => h
      case Revealed(n) => h + [n]
      case Cleared => []
  }

  /** The numbers revealed in the log, in the order they were revealed. */
  function Reveals(log: seq<Event>): seq<int>
  {
    if log == [] then []
    else Reveals(log[..|log| - 1]) + (if log[|log| - 1].Revealed? then [log[|log| - 1].num] else [])
  }

  /** The numbers accepted in the log, in the order they were accepted. */
  function Accepts(log: seq<Event>): seq<int>
  {
    if log == [] then []
    else Accepts(log[..|log| - 1]) + (if log[|log| - 1].Accepted? then [log[|log| - 1].num] else [])
  }

  /** The history is what the last reset left, followed by every number
      revealed since, in the order revealed. */
  lemma {:induction false} ReplayAfterLastReset(pre: seq<Event>, e: Event, tail: seq<Event>)
    requires IsReset(e) && NoReset(tail)
    ensures Replay(pre + [e] + tail) == ResetBase(e) + Reveals(tail)
  {
    var log := pre + [e] + tail;
    if tail == [] {
      assert log[..|log| - 1] == pre;
      assert log[|log| - 1] == e;
    } else {
      var t := tail[..|tail| - 1];
      var x := tail[|tail| - 1];
      assert log[..|log| - 1] == pre + [e] + t;
      assert log[|log| - 1] == x;
      assert !IsReset(x);
      assert NoReset(t) by {
        forall i | 0 <= i < |t| ensures !IsReset(t[i]) { assert t[i] == tail[i]; }
      }
      ReplayAfterLastReset(pre, e, t);
    }
  }

  /** Without a reset, the history is exactly the numbers revealed. */
  lemma {:induction false} ReplayWithoutReset(log: seq<Event>)
    requires NoReset(log)
    ensures Replay(log) == Reveals(log)
  {
    if log != [] {
      var t := log[..|log| - 1];
      assert !IsReset(log[|log| - 1]);
      assert NoReset(t) by {
        forall i | 0 <= i < |t| ensures !IsReset(t[i]) { assert t[i] == log[i]; }
      }
      ReplayWithoutReset(t);
    }
  }

  // ---------------------------------------------------------------------
  // Derived views of the history

  function Min(a: int, b: int): int {
    if a < b then a else b
  }

  /** The "last number" statistic: `None` shows as '-'. */
  function LastNumber(h: seq<int>): (r: Option<int>)
    ensures r.None? <==> h == []
    ensures r.Some? ==> r.value == h[|h| - 1]
  {
    if |h| > 0 then Some(h[|h| - 1]) else None
  }

  /** `h.slice(-5)`: the recent-draws panel, the last five draws (or all of
      them when fewer), oldest first. */
  function Recent(h: seq<int>): (r: seq<int>)
    ensures |r| == Min(5, |h|)
    ensures h == h[..|h| - |r|] + r
  {
    h[|h| - Min(5, |h|)..]
  }

  /** How the views move when a number is revealed: the new number is the
      last, and the recent panel drops its oldest entry once it is full. */
  lemma ViewsAfterAppend(h: seq<int>, x: int)
    ensures LastNumber(h + [x]) == Some(x)
    ensures Recent(h + [x]) == (if |h| < 5 then Recent(h) else Recent(h)[1..]) + [x]
  {
    var h' := h + [x];
    if |h| >= 5 {
      assert h'[|h'| - 5..] == h[|h| - 4..] + [x];
    }
  }

  /** The last number is the last entry of the recent panel. */
  lemma LastIsEndOfRecent(h: seq<int>)
    requires h != []
    ensures LastNumber(h) == Some(Recent(h)[|Recent(h)| - 1])
  {
  }

  /** `globalIndex` as written at app/page.tsx:252 for the entry at
      `localIndex` of the recent panel. */
  function GlobalIndexAsWritten(n: nat, localIndex: nat): (r: int)
    ensures 5 <= n && localIndex < 5 ==> r == GlobalIndex(n, localIndex)
    ensures n < 5 ==> r < localIndex
  {
    n - 5 + localIndex
  }

  /** With fewer than five draws the written index is short of the entry's
      index in the history by the number of missing draws; for two draws
      the first entry gets -3. */
  lemma GlobalIndexAsWrittenMisses(n: nat, k: nat)
    requires k < n < 5
    ensures GlobalIndexAsWritten(n, k) == GlobalIndex(n, k) - (5 - n)
    ensures GlobalIndexAsWritten(n, k) != GlobalIndex(n, k)
  {
  }

  /** The index in the history of the entry at `localIndex` of the recent panel. */
  function GlobalIndex(n: nat, localIndex: nat): (r: nat)
    requires localIndex < Min(5, n)
    ensures r < n
  {
    n - Min(5, n) + localIndex
  }

  /** The corrected index addresses the same draw the panel shows. */
  lemma RecentAtGlobalIndex(h: seq<int>, k: nat)
    requires k < |Recent(h)|
    ensures Recent(h)[k] == h[GlobalIndex(|h|, k)]
  {
  }

  // ---------------------------------------------------------------------
  // The console's state

  class DrawConsole {
    /** The text of the number input. */
    var input: string
    /** The number in the big ball; `None` shows the prompt instead. */
    var displayed: Option<int>
    /** The history of drawn numbers, oldest first. */
    var drawn: seq<int>
    var allowRepeat: bool
    var animating: bool
    /** The numbers of the queued 100 ms reveal callbacks, oldest first. */
    var pendingReveals: seq<int>
    /** The number of queued 500 ms settle callbacks. */
    var pendingSettles: nat
    /** Every load, acceptance, reveal and clear so far. */
    ghost var log: seq<Event>

    /** The history is the replay of the log, and the queued reveals are the
        accepted numbers not yet revealed, in acceptance order. */
    ghost predicate Valid()
      reads this
    {
      drawn == Replay(log) && Accepts(log) == Reveals(log) + pendingReveals
    }

    /** The show button's guard (`disabled={!number || isAnimating}`). */
    function ShowEnabled(): (r: bool)
      reads this
      ensures r && OneCycleAtATime() ==> pendingReveals == [] && pendingSettles == 0
    {
      input != "" && !animating
    }

    /** The clear button's guard (`disabled={drawnNumbers.length === 0}`). */
    function ClearEnabled(): (r: bool)
      reads this
      ensures r <==> LastNumber(drawn).Some?
      ensures Valid() ==> (r <==> Replay(log) != [])
    {
      drawn != []
    }

    /** At most one show cycle in flight, and the animation flag is on
        exactly while it is. */
    ghost predicate OneCycleAtATime()
      reads this
    {
      && |pendingReveals| + pendingSettles <= 1
      && (animating <==> pendingReveals != [] || pendingSettles > 0)
    }

    /** The initial state of the component's `useState` hooks. */
    constructor ()
      ensures Valid() && OneCycleAtATime()
      ensures input == "" && displayed == None && drawn == []
      ensures !allowRepeat && !animating
      ensures pendingReveals == [] && pendingSettles == 0 && log == []
    {
      input, displayed, drawn := "", None, [];
      allowRepeat, animating := false, false;
      pendingReveals, pendingSettles := [], 0;
      log := [];
    }

    /** The mount effect: `saved` is `None` when nothing is stored or the
        stored text does not parse, and then nothing changes. */
    method Load(saved: Option<SavedRecord>)
      requires Valid()
      modifies this
      ensures Valid()
      ensures saved.None? ==> unchanged(this)
      ensures saved.Some? ==>
        && drawn == LoadedNumbers(saved.value)
        && allowRepeat == LoadedAllowRepeat(saved.value)
        && log == old(log) + [Loaded(drawn)]
      ensures input == old(input) && displayed == old(displayed) && animating == old(animating)
      ensures pendingReveals == old(pendingReveals) && pendingSettles == old(pendingSettles)
      ensures old(OneCycleAtATime()) ==> OneCycleAtATime()
    {
      if saved.Some? {
        drawn := LoadedNumbers(saved.value);
        allowRepeat := LoadedAllowRepeat(saved.value);
        log := log + [Loaded(drawn)];
      }
    }

    /** The input's `onChange`. */
    method SetInput(s: string)
      requires Valid()
      modifies this`input
      ensures Valid() && input == s
      ensures old(OneCycleAtATime()) ==> OneCycleAtATime()
    {
      input := s;
    }

    /** The repeat checkbox's `onChange`, which may happen at any time. */
    method SetAllowRepeat(b: bool)
      requires Valid()
      modifies this`allowRepeat
      ensures Valid() && allowRepeat == b
      ensures old(OneCycleAtATime()) ==> OneCycleAtATime()
    {
      allowRepeat := b;
    }

    /** What `handleShow` does in one call: the outcome of its guards, then
        either no change at all or the start step (clear the display, turn
        the animation on, queue the reveal of the number). */
    twostate predicate ShowEffect(outcome: ShowOutcome)
      reads this
    {
      && outcome == Judge(Decimal.ParseInt(old(input)), old(allowRepeat), old(drawn))
      && (if outcome.Started? then
            && displayed == None && animating
            && pendingReveals == old(pendingReveals) + [outcome.num]
            && input == old(input) && drawn == old(drawn) && allowRepeat == old(allowRepeat)
            && pendingSettles == old(pendingSettles)
            && log == old(log) + [Accepted(outcome.num)]
          else
            unchanged(this))
    }

    /** `handleShow`: parse the input; ignore it when it is not a number or
        below 1; refuse a number already drawn unless repeats are allowed;
        otherwise run the start step. */
    method HandleShow() returns (outcome: ShowOutcome)
      requires Valid()
      modifies this
      ensures Valid()
      ensures ShowEffect(outcome)
    {
      var parsed := Decimal.ParseInt(input);
      if parsed.None? || parsed.value < 1 {
        return Ignored;
      }
      if !allowRepeat && parsed.value in drawn {
        return RepeatWarning;
      }
      outcome := Started(parsed.value);
      Start(parsed.value);
    }

    /** The start step of `handleShow` for an accepted number: clear the
        display, turn the animation on and queue the reveal. */
    method Start(num: int)
      requires Valid()
      modifies this
      ensures Valid()
      ensures displayed == None && animating && pendingReveals == old(pendingReveals) + [num]
      ensures input == old(input) && drawn == old(drawn) && allowRepeat == old(allowRepeat)
      ensures pendingSettles == old(pendingSettles) && log == old(log) + [Accepted(num)]
    {
      ghost var log' := log + [Accepted(num)];
      assert log'[..|log'| - 1] == log;
      assert Accepts(log') == Reveals(log') + (pendingReveals + [num]);
      displayed := None;
      animating := true;
      pendingReveals := pendingReveals + [num];
      log := log';
    }

    /** The first timer callback: show the number, append it to the history
        (to whatever the history is by then) and clear the input; then queue
        the settle callback. */
    method Reveal() returns (num: int)
      requires Valid() && pendingReveals != []
      modifies this
      ensures Valid()
      ensures num == old(pendingReveals[0])
      ensures displayed == Some(num) && drawn == old(drawn) + [num] && input == ""
      ensures pendingReveals == old(pendingReveals[1..]) && pendingSettles == old(pendingSettles) + 1
      ensures allowRepeat == old(allowRepeat) && animating == old(animating)
      ensures log == old(log) + [Revealed(num)]
      ensures old(OneCycleAtATime()) ==> OneCycleAtATime()
    {
      num := pendingReveals[0];
      ghost var log' := log + [Revealed(num)];
      assert log'[..|log'| - 1] == log;
      assert pendingReveals == [num] + pendingReveals[1..];
      assert Accepts(log') == Reveals(log') + pendingReveals[1..];
      displayed := Some(num);
      drawn := drawn + [num];
      input := "";
      pendingReveals := pendingReveals[1..];
      pendingSettles := pendingSettles + 1;
      log := log';
    }

    /** The second timer callback: the animation ends. */
    method Settle()
      requires Valid() && pendingSettles > 0
      modifies this
      ensures Valid()
      ensures !animating && pendingSettles == old(pendingSettles) - 1
      ensures input == old(input) && displayed == old(displayed) && drawn == old(drawn)
      ensures allowRepeat == old(allowRepeat) && pendingReveals == old(pendingReveals)
      ensures log == old(log)
      ensures old(OneCycleAtATime()) ==> OneCycleAtATime()
    {
      animating := false;
      pendingSettles := pendingSettles - 1;
    }

    /** `handleClear`: once confirmed, empty the history and the display;
        declined, nothing changes. */
    method HandleClear(confirmed: bool)
      requires Valid()
      modifies this
      ensures Valid()
      ensures !confirmed ==> unchanged(this)
      ensures confirmed ==> drawn == [] && displayed == None && log == old(log) + [Cleared]
      ensures input == old(input) && allowRepeat == old(allowRepeat) && animating == old(animating)
      ensures pendingReveals == old(pendingReveals) && pendingSettles == old(pendingSettles)
      ensures old(OneCycleAtATime()) ==> OneCycleAtATime()
    {
      if confirmed {
        drawn := [];
        displayed := None;
        log := log + [Cleared];
      }
    }

    /** A click on the show button, which is disabled while the input is
        empty or the animation runs. */
    method ClickShow() returns (outcome: Option<ShowOutcome>)
      requires Valid()
      modifies this
      ensures Valid()
      ensures outcome.None? <==> !old(ShowEnabled())
      ensures outcome.None? ==> unchanged(this)
      ensures outcome.Some? ==> ShowEffect(outcome.value)
      ensures old(OneCycleAtATime()) ==> OneCycleAtATime()
    {
      if !ShowEnabled() {
        return None;
      }
      var o := HandleShow();
      outcome := Some(o);
    }

    /** A key press in the input: Enter calls `handleShow` directly, without
        the button's guard. */
    method PressKey(key: string) returns (outcome: Option<ShowOutcome>)
      requires Valid()
      modifies this
      ensures Valid()
      ensures outcome.None? <==> key != "Enter"
      ensures outcome.None? ==> unchanged(this)
      ensures outcome.Some? ==> ShowEffect(outcome.value)
    {
      if key != "Enter" {
        return None;
      }
      var o := HandleShow();
      outcome := Some(o);
    }

    /** A key press with the button's guard applied to the Enter path too. */
    method PressKeyGuarded(key: string) returns (outcome: Option<ShowOutcome>)
      requires Valid()
      modifies this
      ensures Valid()
      ensures outcome.None? <==> key != "Enter" || !old(ShowEnabled())
      ensures outcome.None? ==> unchanged(this)
      ensures outcome.Some? ==> ShowEffect(outcome.value)
      ensures old(OneCycleAtATime()) ==> OneCycleAtATime()
      ensures old(OneCycleAtATime()) && outcome.Some? && outcome.value.Started? && !old(allowRepeat) ==>
                outcome.value.num !in old(drawn) + old(pendingReveals)
    {
      if key != "Enter" || !ShowEnabled() {
        return None;
      }
      var o := HandleShow();
      outcome := Some(o);
    }

    /** A click on the clear button, disabled while the history is empty. */
    method ClickClear(confirmed: bool)
      requires Valid()
      modifies this
      ensures Valid()
      ensures !(confirmed && old(ClearEnabled())) ==> unchanged(this)
      ensures confirmed && old(ClearEnabled()) ==> drawn == [] && displayed == None && log == old(log) + [Cleared]
      ensures input == old(input) && allowRepeat == old(allowRepeat) && animating == old(animating)
      ensures pendingReveals == old(pendingReveals) && pendingSettles == old(pendingSettles)
      ensures old(OneCycleAtATime()) ==> OneCycleAtATime()
    {
      if ClearEnabled() {
        HandleClear(confirmed);
      }
    }
  }

  /** Pressing Enter twice before the first reveal, with repeats not
      allowed, records the same number twice. */
  method EnterTwiceRecordsRepeat(x: nat) returns (history: seq<int>, repeatsAllowed: bool)
    requires x >= 1
    ensures history == [x, x] && !repeatsAllowed
  {
    var c := new DrawConsole();
    c.SetInput(Decimal.ToDecimal(x));
    assert Decimal.ToDecimal(x) + "" == Decimal.ToDecimal(x);
    Decimal.ParseIntOfToDecimal(x, "");
    assert Decimal.ParseInt(c.input) == Some(x);
    var first := c.PressKey("Enter");
    assert first == Some(Started(x));
    assert c.drawn == [] && c.pendingReveals == [x] && !c.allowRepeat;
    var second := c.PressKey("Enter");
    assert second == Some(Started(x));
    assert c.pendingReveals == [x, x];
    var n1 := c.Reveal();
    assert c.drawn == [x] && c.pendingReveals == [x];
    var n2 := c.Reveal();
    history, repeatsAllowed := c.drawn, c.allowRepeat;
  }

  /** One show through the button, run to completion: start, reveal, settle. */
  method ShowOnce(x: nat) returns (history: seq<int>, shown: Option<int>, input: string, animating: bool)
    requires x >= 1
    ensures history == [x] && shown == Some(x) && input == "" && !animating
  {
    var c := new DrawConsole();
    c.SetInput(Decimal.ToDecimal(x));
    assert Decimal.ToDecimal(x) + "" == Decimal.ToDecimal(x);
    Decimal.ParseIntOfToDecimal(x, "");
    var o := c.ClickShow();
    assert o == Some(Started(x));
    var n := c.Reveal();
    c.Settle();
    history, shown, input, animating := c.drawn, c.displayed, c.input, c.animating;
  }

  /** With a loaded history that holds `x` and repeats not allowed, showing
      `x` again is refused and the history stays as it was. */
  method RepeatRefused(h: seq<int>, x: nat) returns (outcome: Option<ShowOutcome>, history: seq<int>)
    requires x >= 1 && x in h
    ensures outcome == Some(RepeatWarning) && history == h
  {
    var c := new DrawConsole();
    c.Load(Some(SaveRecord(h, false)));
    c.SetInput(Decimal.ToDecimal(x));
    assert Decimal.ToDecimal(x) + "" == Decimal.ToDecimal(x);
    Decimal.ParseIntOfToDecimal(x, "");
    outcome := c.ClickShow();
    history := c.drawn;
  }

  /** With a loaded history that holds `x` and repeats allowed, showing `x`
      again appends it: the history grows by exactly one. */
  method RepeatAllowed(h: seq<int>, x: nat) returns (outcome: Option<ShowOutcome>, history: seq<int>)
    requires x >= 1 && x in h
    ensures outcome == Some(Started(x)) && history == h + [x] && |history| == |h| + 1
  {
    var c := new DrawConsole();
    c.Load(Some(SaveRecord(h, true)));
    c.SetInput(Decimal.ToDecimal(x));
    assert Decimal.ToDecimal(x) + "" == Decimal.ToDecimal(x);
    Decimal.ParseIntOfToDecimal(x, "");
    outcome := c.ClickShow();
    var n := c.Reveal();
    history := c.drawn;
  }
}
