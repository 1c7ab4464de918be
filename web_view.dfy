/** The phone web view used for OAuth-style navigation inside the app shell.

    The control keeps three optional callbacks (finished, error, started), an
    opaque caller object handed back to each of them, an `IsActive` flag, its
    own visibility and the visibility of a "Loading..." progress indicator.
    It reacts to six inputs: `Navigate`, the activation that `Navigate`
    queues on the UI dispatcher, the browser's three lifecycle events and
    `Finish`.

    The module has two layers. `Step` and `Emitted` say, as pure functions,
    what one input does to a `Snapshot` of the control and which callback
    invocations it produces; `Run` folds them over a sequence of inputs, and
    the lemmas about `Run` state what holds across whole sessions. The class
    `FBWebViewWP8` is the control itself: its fields are the control's
    fields, each input is a method that updates them in place, every callback
    invocation is appended to the ghost `Trace`, and every input method
    (`Navigate`, `RunDispatched`, `NavigationStarted`, `NavigationFinished`,
    `NavigationFailed`, `Finish`) is proved to follow `Step` and `Emitted`;
    the constructor is tied to `Initial`. */
module WebView {

  datatype Option<T> = None | Some(value: T)

  type Uri = string

  /** Opaque handle of a callback delegate supplied by the caller. */
  datatype Callback = Callback(id: nat)

  /** The opaque object a caller passes to `Navigate` and gets back in every
      callback; `Null` is the default when the caller passes none. */
  datatype Context = Null | Object(id: nat)

  datatype Visibility = Visible | Collapsed

  /** What the embedded browser was last told to load: the empty document
      (`NavigateToString("")`) or a page. */
  datatype Content = Blank | Page(uri: Uri)

  /** The code every failed navigation reports; no finer classification is made. */
  const NavigationFailedCode: int := 1

  /** One invocation of a caller's callback. */
  datatype Invocation =
    | StartedCalled(callback: Callback, uri: Uri, context: Context)
    | FinishedCalled(callback: Callback, uri: Uri, context: Context)
    | ErrorCalled(callback: Callback, uri: Uri, code: int, context: Context)

  /** The control's whole state. `pending` holds, oldest first, the uris of
      the activations `Navigate` has queued on the dispatcher and that have
      not run yet. */
  datatype Snapshot = Snapshot(
    onFinished: Option<Callback>,
    onError: Option<Callback>,
    onStart: Option<Callback>,
    state: Context,
    isActive: bool,
    visibility: Visibility,
    progressVisible: bool,
    content: Content,
    pending: seq<Uri>)

  /** The inputs the control reacts to. */
  datatype Input =
    | NavigateCall(uri: Uri, finished: Option<Callback>, error: Option<Callback>,
                   context: Context, started: Option<Callback>)
    | Dispatch
    | StartedEvent(uri: Uri)
    | FinishedEvent(uri: Uri)
    | FailedEvent(uri: Uri)
    | FinishCall

  /** Finished and failed events and `Finish` hide the progress indicator. */
  predicate HidesProgress(i: Input) {
    i.FinishedEvent? || i.FailedEvent? || i.FinishCall?
  }

  /** A freshly constructed control: browser showing the empty document,
      indicator hidden, inactive, no callbacks, no caller object. A user
      control starts out visible; the constructor does not change that. */
  function Initial(): (s: Snapshot)
    ensures !s.progressVisible && !s.isActive
    ensures s.onFinished.None? && s.onError.None? && s.onStart.None?
    ensures s.state == Null && s.content == Blank && s.pending == []
  {
    Snapshot(None, None, None, Null, false, Visible, false, Blank, [])
  }

  /** The state after one input. */
  function Step(s: Snapshot, i: Input): (t: Snapshot)
    // Navigate replaces all three callbacks and the caller object and queues
    // the activation; activity, visibility, indicator and page are untouched.
    ensures i.NavigateCall? ==>
      t.onFinished == i.finished && t.onError == i.error && t.onStart == i.started &&
      t.state == i.context && t.pending == s.pending + [i.uri] &&
      t.isActive == s.isActive && t.visibility == s.visibility &&
      t.progressVisible == s.progressVisible && t.content == s.content
    // The oldest queued activation makes the control visible and active and
    // loads its uri; callbacks, caller object and indicator are untouched.
    ensures i.Dispatch? && s.pending != [] ==>
      t == s.(isActive := true, visibility := Visible, content := Page(s.pending[0]),
              pending := s.pending[1..])
    ensures i.Dispatch? && s.pending == [] ==> t == s
    // A started event shows the indicator and changes nothing else.
    ensures i.StartedEvent? ==> t.progressVisible && t == s.(progressVisible := true)
    // A terminal event hides the indicator and changes nothing else.
    ensures i.FinishedEvent? || i.FailedEvent? ==>
      !t.progressVisible && t == s.(progressVisible := false)
    // Finish hides indicator and control, clears the callbacks, deactivates
    // and blanks the browser; the caller object and the queue stay.
    ensures i.FinishCall? ==>
      !t.progressVisible && t.onFinished.None? && t.onError.None? && t.onStart.None? &&
      !t.isActive && t.visibility == Collapsed && t.content == Blank &&
      t.state == s.state && t.pending == s.pending
  {
    match i
    case NavigateCall(uri, finished, error, context, started) =>
      s.(onFinished := finished, onStart := started, onError := error, state := context,
         pending := s.pending + [uri])
    case Dispatch =>
      if s.pending == [] then s
      else s.(visibility := Visible, isActive := true, content := Page(s.pending[0]),
              pending := s.pending[1..])
    case StartedEvent(_) => s.(progressVisible := true)
    case FinishedEvent(_) => s.(progressVisible := false)
    case FailedEvent(_) => s.(progressVisible := false)
    case FinishCall =>
      s.(progressVisible := false, onError := None, onStart := None, onFinished := None,
         content := Blank, visibility := Collapsed, isActive := false)
  }

  /** The callback invocations one input produces. */
  function Emitted(s: Snapshot, i: Input): (out: seq<Invocation>)
    ensures |out| <= 1
    // Only a lifecycle event whose own callback is registered invokes anything.
    ensures out != [] <==>
      (i.StartedEvent? && s.onStart.Some?) || (i.FinishedEvent? && s.onFinished.Some?) ||
      (i.FailedEvent? && s.onError.Some?)
    // Each event invokes its own callback, never another one, with the event's
    // uri and the stored caller object; a failure always reports code 1.
    ensures i.StartedEvent? && s.onStart.Some? ==>
      out == [StartedCalled(s.onStart.value, i.uri, s.state)]
    ensures i.FinishedEvent? && s.onFinished.Some? ==>
      out == [FinishedCalled(s.onFinished.value, i.uri, s.state)]
    ensures i.FailedEvent? && s.onError.Some? ==>
      out == [ErrorCalled(s.onError.value, i.uri, 1, s.state)]
  {
    match i
    case StartedEvent(uri) =>
      if s.onStart.Some? then [StartedCalled(s.onStart.value, uri, s.state)] else []
    case FinishedEvent(uri) =>
      if s.onFinished.Some? then [FinishedCalled(s.onFinished.value, uri, s.state)] else []
    case FailedEvent(uri) =>
      if s.onError.Some? then [ErrorCalled(s.onError.value, uri, NavigationFailedCode, s.state)] else []
    case _ => []
  }

  /** The final state and all callback invocations of a sequence of inputs. */
  datatype Outcome = Outcome(final: Snapshot, calls: seq<Invocation>)

  /** The number of browser lifecycle events among `ins`. */
  function LifecycleEvents(ins: seq<Input>): nat {
    if ins == [] then 0
    else (if ins[0].StartedEvent? || ins[0].FinishedEvent? || ins[0].FailedEvent? then 1 else 0)
         + LifecycleEvents(ins[1..])
  }

  /** A session invokes at most one callback per lifecycle event; `Navigate`,
      the queued activation and `Finish` never invoke one. */
  function Run(s: Snapshot, ins: seq<Input>): (o: Outcome)
    ensures |o.calls| <= LifecycleEvents(ins)
    decreases |ins|
  {
    if ins == [] then Outcome(s, [])
    else
      var rest := Run(Step(s, ins[0]), ins[1..]);
      Outcome(rest.final, Emitted(s, ins[0]) + rest.calls)
  }

  /** Running two sequences one after the other is running their concatenation. */
  lemma {:induction false} RunAppend(s: Snapshot, a: seq<Input>, b: seq<Input>)
    ensures Run(s, a + b).final == Run(Run(s, a).final, b).final
    ensures Run(s, a + b).calls == Run(s, a).calls + Run(Run(s, a).final, b).calls
    decreases |a|
  {
    if a != [] {
      assert (a + b)[0] == a[0];
      assert (a + b)[1..] == a[1..] + b;
      RunAppend(Step(s, a[0]), a[1..], b);
    } else {
      assert a + b == b;
    }
  }

  /** A set of callbacks with the caller object they were registered with. */
  datatype Registration = Registration(finished: Option<Callback>, error: Option<Callback>,
                                       started: Option<Callback>, context: Context)

  /** Every callback `s` still holds is the one `reg` registered in its slot,
      and the caller object is `reg`'s. */
  ghost predicate Within(s: Snapshot, reg: Registration) {
    (s.onFinished.None? || s.onFinished == reg.finished) &&
    (s.onError.None? || s.onError == reg.error) &&
    (s.onStart.None? || s.onStart == reg.started) &&
    s.state == reg.context
  }

  /** `call` went to the callback `reg` registered for its kind, with `reg`'s
      caller object, and a failure carries code 1. */
  ghost predicate Delivers(reg: Registration, call: Invocation) {
    call.context == reg.context &&
    match call
    case StartedCalled(cb, _, _) => reg.started == Some(cb)
    case FinishedCalled(cb, _, _) => reg.finished == Some(cb)
    case ErrorCalled(cb, _, code, _) => reg.error == Some(cb) && code == NavigationFailedCode
  }

  predicate NoNavigate(ins: seq<Input>) {
    forall k :: 0 <= k < |ins| ==> !ins[k].NavigateCall?
  }

  /** Without a new `Navigate`, the control keeps to the callbacks it holds:
      every invocation goes to one of them, in its own slot, with the stored
      caller object. */
  lemma {:induction false} OnlyRegisteredCallbacksFire(s: Snapshot, reg: Registration, ins: seq<Input>)
    requires Within(s, reg) && NoNavigate(ins)
    ensures Within(Run(s, ins).final, reg)
    ensures forall k :: 0 <= k < |Run(s, ins).calls| ==> Delivers(reg, Run(s, ins).calls[k])
    ensures reg.finished.None? && reg.error.None? && reg.started.None? ==> Run(s, ins).calls == []
    decreases |ins|
  {
    if ins != [] {
      assert !ins[0].NavigateCall?;
      assert NoNavigate(ins[1..]) by {
        forall k | 0 <= k < |ins[1..]| ensures !ins[1..][k].NavigateCall? {
          assert ins[1..][k] == ins[k + 1];
        }
      }
      OnlyRegisteredCallbacksFire(Step(s, ins[0]), reg, ins[1..]);
    }
  }

  /** After `Finish`, no lifecycle event and no queued activation reaches caller
      code until the next `Navigate`. */
  lemma {:induction false} SilentAfterFinish(s: Snapshot, ins: seq<Input>)
    requires NoNavigate(ins)
    ensures Run(s, [FinishCall] + ins).calls == []
  {
    var cleared := Registration(None, None, None, s.state);
    assert ([FinishCall] + ins)[1..] == ins;
    OnlyRegisteredCallbacksFire(Step(s, FinishCall), cleared, ins);
  }

  /** `Finish` is idempotent: a second call leaves the same state and invokes nothing. */
  lemma FinishIdempotent(s: Snapshot)
    ensures Step(Step(s, FinishCall), FinishCall) == Step(s, FinishCall)
    ensures Emitted(Step(s, FinishCall), FinishCall) == []
  {
  }

  /** A second `Navigate` replaces the first callback set: until the next
      `Navigate`, every invocation goes to the second set, in the matching
      slot, with the second caller object. */
  lemma {:induction false} NavigateReplacesCallbacks(s: Snapshot, uri: Uri, reg: Registration, ins: seq<Input>)
    requires NoNavigate(ins)
    ensures var calls := Run(s, [NavigateCall(uri, reg.finished, reg.error, reg.context, reg.started)] + ins).calls;
      forall k :: 0 <= k < |calls| ==> Delivers(reg, calls[k])
  {
    var nav := NavigateCall(uri, reg.finished, reg.error, reg.context, reg.started);
    assert ([nav] + ins)[1..] == ins;
    OnlyRegisteredCallbacksFire(Step(s, nav), reg, ins);
  }

  /** `call` is an invocation of the started callback `s` holds, with its caller object. */
  ghost predicate StartedOf(s: Snapshot, call: Invocation) {
    call.StartedCalled? && s.onStart == Some(call.callback) && call.context == s.state
  }

  /** Activations and started events leave callbacks and caller object alone,
      and every invocation they produce is a started callback. */
  lemma {:induction false} NonTerminalKeepsCallbacks(s: Snapshot, ins: seq<Input>)
    requires forall k :: 0 <= k < |ins| ==> ins[k].Dispatch? || ins[k].StartedEvent?
    ensures var t := Run(s, ins).final;
      t.onFinished == s.onFinished && t.onError == s.onError && t.onStart == s.onStart &&
      t.state == s.state
    ensures forall k :: 0 <= k < |Run(s, ins).calls| ==> StartedOf(s, Run(s, ins).calls[k])
    decreases |ins|
  {
    if ins != [] {
      forall k | 0 <= k < |ins[1..]| ensures ins[1..][k].Dispatch? || ins[1..][k].StartedEvent? {
        assert ins[1..][k] == ins[k + 1];
      }
      assert ins[0].Dispatch? || ins[0].StartedEvent?;
      assert Step(s, ins[0]).onStart == s.onStart && Step(s, ins[0]).state == s.state;
      NonTerminalKeepsCallbacks(Step(s, ins[0]), ins[1..]);
      var head, tail := Emitted(s, ins[0]), Run(Step(s, ins[0]), ins[1..]).calls;
      var calls: seq<Invocation> := Run(s, ins).calls;
      assert calls == head + tail;
      forall k | 0 <= k < |calls| ensures StartedOf(s, calls[k]) {
        if k >= |head| {
          assert calls[k] == tail[k - |head|];
        } else {
          assert calls[k] == head[0];
        }
      }
    }
  }

  /** A navigation that ends in a finished event invokes, after any number of
      started callbacks, the finished callback exactly once, with the event's
      uri and the caller object; the error callback is never invoked. */
  lemma NavigateThenFinished(s: Snapshot, uri: Uri, f: Callback, e: Option<Callback>, c: Context,
                             st: Option<Callback>, mid: seq<Input>, done: Uri)
    requires forall k :: 0 <= k < |mid| ==> mid[k].Dispatch? || mid[k].StartedEvent?
    ensures var calls := Run(s, [NavigateCall(uri, Some(f), e, c, st)] + mid + [FinishedEvent(done)]).calls;
      |calls| >= 1 && calls[|calls| - 1] == FinishedCalled(f, done, c) &&
      forall k :: 0 <= k < |calls| - 1 ==>
        calls[k].StartedCalled? && Some(calls[k].callback) == st && calls[k].context == c
  {
    var nav := NavigateCall(uri, Some(f), e, c, st);
    TerminalAfterNavigate(s, nav, mid, FinishedEvent(done));
  }

  /** A navigation that ends in a failed event invokes, after any number of
      started callbacks, the error callback exactly once, with code 1, the
      event's uri and the caller object; the finished callback is never invoked. */
  lemma NavigateThenFailed(s: Snapshot, uri: Uri, f: Option<Callback>, e: Callback, c: Context,
                           st: Option<Callback>, mid: seq<Input>, failed: Uri)
    requires forall k :: 0 <= k < |mid| ==> mid[k].Dispatch? || mid[k].StartedEvent?
    ensures var calls := Run(s, [NavigateCall(uri, f, Some(e), c, st)] + mid + [FailedEvent(failed)]).calls;
      |calls| >= 1 && calls[|calls| - 1] == ErrorCalled(e, failed, 1, c) &&
      forall k :: 0 <= k < |calls| - 1 ==>
        calls[k].StartedCalled? && Some(calls[k].callback) == st && calls[k].context == c
  {
    var nav := NavigateCall(uri, f, Some(e), c, st);
    TerminalAfterNavigate(s, nav, mid, FailedEvent(failed));
  }

  /** Shared argument of the two lemmas above: the run splits into the
      navigation, the non-terminal middle and the terminal event. */
  lemma TerminalAfterNavigate(s: Snapshot, nav: Input, mid: seq<Input>, last: Input)
    requires nav.NavigateCall?
    requires forall k :: 0 <= k < |mid| ==> mid[k].Dispatch? || mid[k].StartedEvent?
    ensures var s1 := Step(s, nav);
      var t := Run(s1, mid).final;
      var calls := Run(s, [nav] + mid + [last]).calls;
      calls == Run(s1, mid).calls + Emitted(t, last) &&
      t.onFinished == nav.finished && t.onError == nav.error && t.onStart == nav.started &&
      t.state == nav.context &&
      forall k :: 0 <= k < |Run(s1, mid).calls| ==> StartedOf(s1, Run(s1, mid).calls[k])
  {
    var s1 := Step(s, nav);
    RunAppend(s, [nav] + mid, [last]);
    RunAppend(s, [nav], mid);
    NonTerminalKeepsCallbacks(s1, mid);
    assert Run(s, [nav]).final == s1;
    assert Run(s, [nav]).calls == [];
    var t := Run(s1, mid).final;
    assert Run(t, [last]).calls == Emitted(t, last);
  }

  /** No input of `ins` hides the indicator. */
  ghost predicate NoHide(ins: seq<Input>) {
    forall j :: 0 <= j < |ins| ==> !HidesProgress(ins[j])
  }

  /** `ins[k]` is a started event that no later input undoes. */
  ghost predicate StartedUnhidden(ins: seq<Input>, k: int) {
    0 <= k < |ins| && ins[k].StartedEvent? && NoHide(ins[k + 1..])
  }

  /** Reference for the indicator: it is shown after a sequence of inputs
      exactly when some started event is followed by no terminal event and no
      `Finish`, or when it was shown before and nothing since has hidden it. */
  ghost predicate ProgressShown(before: bool, ins: seq<Input>) {
    (exists k :: StartedUnhidden(ins, k)) || (before && NoHide(ins))
  }

  /** The indicator follows the started and terminal events. */
  lemma {:induction false} ProgressFollowsEvents(s: Snapshot, ins: seq<Input>)
    ensures Run(s, ins).final.progressVisible == ProgressShown(s.progressVisible, ins)
    decreases |ins|
  {
    if ins == [] {
    } else {
      var x, rest := ins[0], ins[1..];
      ProgressFollowsEvents(Step(s, x), rest);
      assert ins == [x] + rest;
      ProgressShownCons(s.progressVisible, Step(s, x).progressVisible, x, rest);
    }
  }

  lemma NoHideCons(x: Input, rest: seq<Input>)
    ensures NoHide([x] + rest) <==> !HidesProgress(x) && NoHide(rest)
  {
    var ins := [x] + rest;
    if !HidesProgress(x) && NoHide(rest) {
      forall j | 0 <= j < |ins| ensures !HidesProgress(ins[j]) {
        if j > 0 { assert ins[j] == rest[j - 1]; }
      }
    }
    if NoHide(ins) {
      assert ins[0] == x;
      forall j | 0 <= j < |rest| ensures !HidesProgress(rest[j]) {
        assert rest[j] == ins[j + 1];
      }
    }
  }

  lemma StartedUnhiddenCons(x: Input, rest: seq<Input>, k: int)
    ensures k >= 0 ==> (StartedUnhidden([x] + rest, k + 1) <==> StartedUnhidden(rest, k))
    ensures StartedUnhidden([x] + rest, 0) <==> x.StartedEvent? && NoHide(rest)
  {
    var ins := [x] + rest;
    assert ins[1..] == rest;
    if 0 <= k < |rest| {
      assert ins[k + 1] == rest[k];
      assert ins[k + 2..] == rest[k + 1..];
    }
  }

  /** One input at the front of `rest`, expressed through the indicator state it leaves. */
  lemma ProgressShownCons(before: bool, after: bool, x: Input, rest: seq<Input>)
    requires x.StartedEvent? ==> after
    requires HidesProgress(x) ==> !after
    requires !x.StartedEvent? && !HidesProgress(x) ==> after == before
    ensures ProgressShown(after, rest) == ProgressShown(before, [x] + rest)
  {
    var ins := [x] + rest;
    NoHideCons(x, rest);
    StartedUnhiddenCons(x, rest, -1);
    if exists k :: StartedUnhidden(rest, k) {
      var k :| StartedUnhidden(rest, k);
      StartedUnhiddenCons(x, rest, k);
    }
    if exists k :: StartedUnhidden(ins, k) {
      var k :| StartedUnhidden(ins, k);
      if k > 0 {
        StartedUnhiddenCons(x, rest, k - 1);
      }
    }
  }

  /** From construction on, the indicator is shown exactly when a started
      event has not yet been followed by a terminal event or `Finish`. */
  lemma ProgressFromConstruction(ins: seq<Input>)
    ensures Run(Initial(), ins).final.progressVisible <==> exists k :: StartedUnhidden(ins, k)
  {
    ProgressFollowsEvents(Initial(), ins);
  }

  /** `IsActive` is false until the activation of a `Navigate` has run, true
      right after it, and false again right after `Finish`. */
  lemma ActiveLifecycle(uri: Uri, f: Option<Callback>, e: Option<Callback>, c: Context, st: Option<Callback>)
    ensures !Run(Initial(), [NavigateCall(uri, f, e, c, st)]).final.isActive
    ensures Run(Initial(), [NavigateCall(uri, f, e, c, st), Dispatch]).final.isActive
    ensures Run(Initial(), [NavigateCall(uri, f, e, c, st), Dispatch]).final.content == Page(uri)
    ensures !Run(Initial(), [NavigateCall(uri, f, e, c, st), Dispatch, FinishCall]).final.isActive
  {
    var nav := NavigateCall(uri, f, e, c, st);
    assert [nav, Dispatch][1..] == [Dispatch];
    assert [Dispatch][1..] == [];
    assert [nav, Dispatch, FinishCall][1..] == [Dispatch, FinishCall];
    assert [Dispatch, FinishCall][1..] == [FinishCall];
    assert [FinishCall][1..] == [];
    assert Step(Initial(), nav).pending == [uri];
  }

  /** `Finish` does not cancel an activation that is still queued: when
      `Finish` comes before the dispatcher has run it, the control ends up
      visible and active again, though with no callbacks left to invoke. */
  lemma QueuedActivationOutlivesFinish(uri: Uri, f: Option<Callback>, e: Option<Callback>, c: Context,
                                       st: Option<Callback>)
    ensures var o := Run(Initial(), [NavigateCall(uri, f, e, c, st), FinishCall, Dispatch]);
      o.final.isActive && o.final.visibility == Visible && o.calls == [] &&
      o.final.onFinished.None? && o.final.onError.None? && o.final.onStart.None?
  {
    var nav := NavigateCall(uri, f, e, c, st);
    assert [nav, FinishCall, Dispatch][1..] == [FinishCall, Dispatch];
    assert [FinishCall, Dispatch][1..] == [Dispatch];
  }

  /** The control itself. Invoking a callback is recorded by appending to
      `Trace`; what the caller's callback then does is outside the model. */
  class FBWebViewWP8 {
    var onFinished: Option<Callback>
    var onError: Option<Callback>
    var onStart: Option<Callback>
    var state: Context
    var isActive: bool
    var visibility: Visibility
    var progressVisible: bool   // the indicator's IsVisible
    var content: Content        // what the browser was last told to load
    var pending: seq<Uri>       // activations queued on the dispatcher, oldest first
    ghost var Trace: seq<Invocation>

    /** The control's fields as one value. */
    function View(): Snapshot
      reads this
    {
      Snapshot(onFinished, onError, onStart, state, isActive, visibility, progressVisible,
               content, pending)
    }

    constructor ()
      ensures View() == Initial() && Trace == []
      ensures !progressVisible && !isActive
      ensures onFinished.None? && onError.None? && onStart.None?
    {
      onFinished, onError, onStart := None, None, None;
      state := Null;
      isActive := false;
      visibility := Visible;
      content := Blank;
      pending := [];
      progressVisible := false;
      Trace := [];
    }

    method StartProgress()
      modifies this
      ensures View() == old(View()).(progressVisible := true) && Trace == old(Trace)
    {
      progressVisible := true;
    }

    method StopProgress()
      modifies this
      ensures View() == old(View()).(progressVisible := false) && Trace == old(Trace)
    {
      progressVisible := false;
    }

    method NavigationFailed(uri: Uri)
      modifies this
      ensures View() == Step(old(View()), FailedEvent(uri))
      ensures Trace == old(Trace) + Emitted(old(View()), FailedEvent(uri))
      ensures !progressVisible
      ensures Trace == old(Trace) + if onError.Some? then [ErrorCalled(onError.value, uri, 1, state)] else []
    {
      StopProgress();
      if onError.Some? {
        Trace := Trace + [ErrorCalled(onError.value, uri, NavigationFailedCode, state)];
      }
    }

    method NavigationStarted(uri: Uri)
      modifies this
      ensures View() == Step(old(View()), StartedEvent(uri))
      ensures Trace == old(Trace) + Emitted(old(View()), StartedEvent(uri))
      ensures progressVisible
      ensures Trace == old(Trace) + if onStart.Some? then [StartedCalled(onStart.value, uri, state)] else []
    {
      StartProgress();
      if onStart.Some? {
        Trace := Trace + [StartedCalled(onStart.value, uri, state)];
      }
    }

    method NavigationFinished(uri: Uri)
      modifies this
      ensures View() == Step(old(View()), FinishedEvent(uri))
      ensures Trace == old(Trace) + Emitted(old(View()), FinishedEvent(uri))
      ensures !progressVisible
      ensures Trace == old(Trace) + if onFinished.Some? then [FinishedCalled(onFinished.value, uri, state)] else []
    {
      StopProgress();
      if onFinished.Some? {
        Trace := Trace + [FinishedCalled(onFinished.value, uri, state)];
      }
    }

    method Finish()
      modifies this
      ensures View() == Step(old(View()), FinishCall) && Trace == old(Trace)
      ensures !progressVisible && !isActive && visibility == Collapsed && content == Blank
      ensures onFinished.None? && onError.None? && onStart.None?
      ensures state == old(state) && pending == old(pending)
    {
      StopProgress();
      onError := None;
      onStart := None;
      onFinished := None;
      content := Blank;
      visibility := Collapsed;
      isActive := false;
    }

    /** Stores the callbacks and the caller object, replacing any earlier set,
        and queues the activation; nothing is invoked here. */
    method Navigate(uri: Uri, finishedCallback: Option<Callback>, errorCallback: Option<Callback>,
                    callerState: Context, startedCallback: Option<Callback>)
      modifies this
      ensures View() == Step(old(View()), NavigateCall(uri, finishedCallback, errorCallback,
                                                        callerState, startedCallback))
      ensures Trace == old(Trace)
      ensures onFinished == finishedCallback && onError == errorCallback &&
              onStart == startedCallback && state == callerState
      ensures isActive == old(isActive) && visibility == old(visibility)
      ensures pending == old(pending) + [uri]
    {
      onFinished := finishedCallback;
      onStart := startedCallback;
      onError := errorCallback;
      state := callerState;
      pending := pending + [uri];
    }

    /** The dispatcher runs the oldest queued activation, if there is one:
        the control becomes visible and active and the browser loads its uri. */
    method RunDispatched()
      modifies this
      ensures View() == Step(old(View()), Dispatch) && Trace == old(Trace)
      ensures old(pending) != [] ==>
        isActive && visibility == Visible && content == Page(old(pending)[0]) &&
        pending == old(pending)[1..]
    {
      if pending != [] {
        var uri := pending[0];
        pending := pending[1..];
        visibility := Visible;
        isActive := true;
        content := Page(uri);
      }
    }
  }
}
