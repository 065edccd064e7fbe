/** The one-shot channel as a transition system: one sender, one receiver, a
    shared transition word, and the carrier channel beneath it. Every atomic
    operation on the word or the carrier is one step. */
module OneShot {
  import opened Common

  type Value = nat

  datatype Word = Open | Sending | Sent | SenderClosed | ReceiverClosed

  /** The carrier: the stored value, whether the receive side closed it, and
      whether the send side completed it. */
  datatype Carrier = Carrier(value: Option<Value>, closed: bool, complete: bool)

  /** Where the sender is. `carried` is the value a refused send hands back
      once the sender's drop glue has run. */
  datatype SenderPc =
    | Live
    | Publishing(value: Value)
    | Storing(refused: Option<Value>)
    | Dropping(carried: Option<Value>)
    | Detaching(carried: Option<Value>)
    | Gone(returned: Option<Value>)

  /** Where the receiver is: between operations, or about to touch the carrier
      inside one. */
  datatype ReceiverPc =
    | Ready
    | WinningClose
    | PollingClosed
    | BareClosing
    | TakeClosing
    | Taking
    | Dropped

  /** How the receive side ended: the three terminal closing verdicts, of which
      a plain receive shares the first, and a plain receive that found nothing. */
  datatype Verdict = GotValue | SenderLeft | ClosedEmpty | ReceivedNothing

  /** Who made the first transition out of `Open`. */
  datatype Winner = SendWon | DropWon | CloseWon

  /** `attached` is false once the carrier's receiver has been consumed;
      `completed` is the receiver's own flag. The last four fields record
      history: the value given to `send`, the first transition, the terminal
      verdict of a receive or a closing receive, and whether a bare close
      reached the carrier after send won and before it published. */
  datatype State = State(
    word: Word,
    carrier: Carrier,
    sender: SenderPc,
    receiver: ReceiverPc,
    attached: bool,
    completed: bool,
    received: Option<Value>,
    recovered: Option<Value>,
    destroyed: Option<Value>,
    given: Option<Value>,
    winner: Option<Winner>,
    verdict: Option<Verdict>,
    bare: bool,
    cutOff: bool)

  datatype Step =
    | Send(value: Value)
    | DropSender
    | SenderGoes
    | PollReceive
    | CloseAndPoll
    | Close
    | CloseAndTake
    | ReceiverGoes
    | DropReceiver

  function Initial(): State {
    State(Open, Carrier(None, false, false), Live, Ready, true, false,
          None, None, None, None, None, None, false, false)
  }

  /** A receive edge after completion is a caller bug that the source turns
      into a panic, so it is no step of a run. */
  predicate Enabled(s: State, step: Step) {
    match step
    case Send(_) => s.sender.Live?
    case DropSender => s.sender.Live?
    case SenderGoes => !s.sender.Live? && !s.sender.Gone?
    case PollReceive => s.receiver.Ready? && !s.completed
    case CloseAndPoll => s.receiver.Ready? && !s.completed
    case Close => s.receiver.Ready?
    case CloseAndTake => s.receiver.Ready?
    case ReceiverGoes => !s.receiver.Ready? && !s.receiver.Dropped?
    case DropReceiver => s.receiver.Ready?
  }

  // ------------------------------------------------------------------ sender

  /** A compare-exchange from `Open`. */
  function Exchanged(s: State, next: Word, who: Winner): State {
    if s.word.Open? then s.(word := next, winner := Some(who)) else s
  }

  function SendBegun(s: State, value: Value): State {
    var t := s.(given := Some(value));
    if s.word.Open? then Exchanged(t, Sending, SendWon).(sender := Publishing(value))
    else t.(sender := Dropping(Some(value)))
  }

  function SenderMoved(s: State): State {
    match s.sender
    case Publishing(value) =>
      if s.carrier.closed then s.(sender := Storing(Some(value)))
      else s.(carrier := s.carrier.(value := Some(value), complete := true), sender := Storing(None))
    case Storing(refused) =>
      s.(word := if refused.None? then Sent else ReceiverClosed, sender := Gone(refused))
    case Dropping(carried) => Exchanged(s, SenderClosed, DropWon).(sender := Detaching(carried))
    case Detaching(carried) =>
      s.(carrier := s.carrier.(complete := true), sender := Gone(carried))
    case _ => s
  }

  // ---------------------------------------------------------------- receiver

  /** Takes the carrier's value as a consumed receiver does. */
  function Consumed(s: State): State {
    s.(carrier := s.carrier.(value := None), attached := false, completed := true)
  }

  predicate CarrierReady(s: State) {
    s.carrier.complete || s.carrier.closed
  }

  /** Polls the carrier; a poll that is ready consumes it. */
  function Polled(s: State, nothing: Verdict): State {
    if !CarrierReady(s) then s.(receiver := Ready)
    else
      Consumed(s).(receiver := Ready,
                   received := if s.carrier.value.Some? then s.carrier.value else s.received,
                   verdict := Some(if s.carrier.value.Some? then GotValue else nothing))
  }

  function CloseArbitrated(s: State): State {
    match s.word
    case Open => Exchanged(s, ReceiverClosed, CloseWon).(receiver := WinningClose)
    case SenderClosed => s.(completed := true, verdict := Some(SenderLeft))
    case ReceiverClosed => s.(completed := true, verdict := Some(ClosedEmpty))
    case _ => s.(receiver := PollingClosed)
  }

  /** Closing an attached carrier; a consumed receiver has nothing to close. */
  function CarrierClosed(s: State): State {
    if s.attached then s.(carrier := s.carrier.(closed := true)) else s
  }

  function CloseBegun(s: State, pc: ReceiverPc): State {
    Exchanged(s, ReceiverClosed, CloseWon).(receiver := pc, bare := true)
  }

  function BareClosed(s: State): State {
    CarrierClosed(s).(cutOff := s.cutOff || (s.attached && s.sender.Publishing?))
  }

  function Recovered(s: State): State {
    if s.attached
    then Consumed(s).(receiver := Ready,
                      recovered := if s.carrier.value.Some? then s.carrier.value else s.recovered)
    else s.(receiver := Ready, completed := true)
  }

  function ReceiverMoved(s: State): State {
    match s.receiver
    case WinningClose =>
      CarrierClosed(s).(receiver := Ready, completed := true, verdict := Some(ClosedEmpty))
    case PollingClosed => Polled(s, SenderLeft)
    case BareClosing => BareClosed(s).(receiver := Ready)
    case TakeClosing => BareClosed(s).(receiver := Taking)
    case Taking => Recovered(s)
    case _ => s
  }

  /** Dropping the receiver closes the carrier and destroys what it stores. */
  function ReceiverDropped(s: State): State {
    var t := BareClosed(s).(receiver := Dropped, completed := true, bare := true);
    if s.attached
    then Consumed(t).(destroyed := if s.carrier.value.Some? then s.carrier.value else s.destroyed)
    else t
  }

  function Fire(s: State, step: Step): State
    requires Enabled(s, step)
  {
    match step
    case Send(value) => SendBegun(s, value)
    case DropSender => s.(sender := Dropping(None))
    case SenderGoes => SenderMoved(s)
    case PollReceive => Polled(s, ReceivedNothing)
    case CloseAndPoll => CloseArbitrated(s)
    case Close => CloseBegun(s, BareClosing)
    case CloseAndTake => CloseBegun(s, TakeClosing)
    case ReceiverGoes => ReceiverMoved(s)
    case DropReceiver => ReceiverDropped(s)
  }

  /** A step that is not enabled changes nothing, so every sequence of steps is
      a run. */
  function Next(s: State, step: Step): State {
    if Enabled(s, step) then Fire(s, step) else s
  }

  function After(steps: seq<Step>): State {
    if steps == [] then Initial()
    else Next(After(steps[..|steps| - 1]), steps[|steps| - 1])
  }

  // ------------------------------------------------------- value conservation

  function Carried(pc: SenderPc): Option<Value> {
    match pc
    case Live => None
    case Publishing(value) => Some(value)
    case Storing(refused) => refused
    case Dropping(carried) => carried
    case Detaching(carried) => carried
    case Gone(returned) => returned
  }

  function Count(o: Option<Value>): nat {
    if o.Some? then 1 else 0
  }

  /** How many places hold a value. */
  function Places(s: State): nat {
    Count(Carried(s.sender)) + Count(s.carrier.value) + Count(s.received)
    + Count(s.recovered) + Count(s.destroyed)
  }

  predicate Holds(o: Option<Value>, given: Option<Value>) {
    o.Some? ==> o == given
  }

  /** A value given to `send` is in exactly one place, and nothing else is
      anywhere. */
  predicate Conserved(s: State) {
    && Places(s) == Count(s.given)
    && Holds(Carried(s.sender), s.given) && Holds(s.carrier.value, s.given)
    && Holds(s.received, s.given) && Holds(s.recovered, s.given) && Holds(s.destroyed, s.given)
  }

  // -------------------------------------------------------------- arbitration

  /** How the word, the winner and the sender agree. */
  predicate SenderAgrees(s: State) {
    && (s.word.Open? <==> s.winner.None?)
    && (s.word.SenderClosed? <==> s.winner == Some(DropWon))
    && (s.word.Sending? <==> s.sender.Publishing? || s.sender.Storing?)
    && (s.word.Sending? || s.word.Sent? ==> s.winner == Some(SendWon))
    && (s.winner == Some(SendWon) ==> s.sender.Publishing? || s.sender.Storing? || s.sender.Gone?)
    && (s.word.Sent? ==> s.sender == Gone(None))
    && (s.sender.Live? ==> s.given.None?)
    && (s.sender.Live? || s.sender.Publishing? || s.sender.Dropping? || s.sender.Detaching? ==>
          !s.carrier.complete)
    && (s.word.Sent? || s.sender == Storing(None) ==> s.carrier.complete)
    && (s.sender.Detaching? ==> !s.word.Open?)
    && (s.sender.Gone? ==> s.carrier.complete || s.carrier.closed)
    && (s.carrier.complete ==> !s.word.Open? && (s.sender.Storing? || s.sender.Gone?))
  }

  /** A send that won and could not publish was cut off by a bare close, or the
      receiver had been dropped. */
  predicate CutOffAgrees(s: State) {
    && (s.cutOff ==> s.winner == Some(SendWon) && s.carrier.closed && s.bare
                     && s.sender != Storing(None) && !s.word.Sent? && !s.carrier.complete
                     && s.verdict != Some(GotValue))
    && (s.winner == Some(SendWon) && s.carrier.closed && !s.carrier.complete ==>
          s.cutOff || s.receiver.Dropped?)
    && (s.carrier.closed && s.word.Open? ==> s.receiver.Dropped?)
    && (s.winner == Some(SendWon) && s.word.ReceiverClosed? ==>
          s.carrier.closed && !s.carrier.complete)
    && (s.sender.Storing? && s.sender.refused.Some? ==> s.carrier.closed && !s.carrier.complete)
  }

  predicate ReceiverAgrees(s: State) {
    && (!s.completed ==> s.attached && s.verdict.None?)
    && (!s.completed ==> s.received.None? && s.recovered.None? && s.destroyed.None?)
    && (s.receiver.WinningClose? ==> s.winner == Some(CloseWon) && !s.completed)
    && (s.receiver.PollingClosed? ==> s.winner == Some(SendWon) && !s.completed)
    && (s.receiver.Dropped? ==> s.completed && s.bare)
    && (s.carrier.value.Some? ==> s.carrier.complete && s.winner == Some(SendWon))
    && (!s.completed && s.carrier.complete && s.winner == Some(SendWon) ==> s.carrier.value.Some?)
    && (s.receiver.BareClosing? || s.receiver.TakeClosing? || s.receiver.Taking? ==>
          s.bare && !s.word.Open?)
    && (!s.bare && s.winner == Some(CloseWon) ==> s.completed || s.receiver.WinningClose?)
    && (!s.bare && s.carrier.closed ==> s.winner == Some(CloseWon) && s.completed)
  }

  predicate Names(verdict: Verdict, winner: Winner) {
    match verdict
    case GotValue => winner.SendWon?
    case SenderLeft => winner.DropWon?
    case ClosedEmpty => winner.CloseWon?
    case ReceivedNothing => winner.DropWon?
  }

  predicate VerdictAgrees(s: State) {
    && (s.verdict.Some? ==> s.winner.Some?)
    && (s.verdict == Some(GotValue) ==> s.winner == Some(SendWon) && s.carrier.complete)
    && (s.verdict == Some(GotValue) <==> s.received.Some?)
    && (s.verdict == Some(SenderLeft) ==>
          s.winner == Some(DropWon) || (s.winner == Some(SendWon) && s.cutOff))
    && (s.verdict == Some(ClosedEmpty) ==>
          s.winner == Some(CloseWon) || (s.winner == Some(SendWon) && s.cutOff))
    && (s.verdict == Some(ReceivedNothing) && !s.bare ==> s.winner == Some(DropWon))
  }

  predicate Inv(s: State) {
    && Conserved(s) && SenderAgrees(s) && CutOffAgrees(s) && ReceiverAgrees(s) && VerdictAgrees(s)
  }

  lemma WinnerIsOne(winner: Option<Winner>)
    ensures winner in {None, Some(SendWon), Some(DropWon), Some(CloseWon)}
  {
    if winner.Some? {
      match winner.value {
        case SendWon =>
        case DropWon =>
        case CloseWon =>
      }
    }
  }

  lemma SenderStarts(s: State, step: Step)
    requires Inv(s) && Enabled(s, step) && (step.Send? || step.DropSender?)
    ensures Inv(Fire(s, step))
  {
  }

  lemma PublishKeeps(s: State)
    requires Inv(s) && s.sender.Publishing?
    ensures Inv(SenderMoved(s))
  {
  }

  lemma StoreKeeps(s: State)
    requires Inv(s) && s.sender.Storing?
    ensures Inv(SenderMoved(s))
  {
  }

  lemma LeaveKeeps(s: State)
    requires Inv(s) && (s.sender.Dropping? || s.sender.Detaching?)
    ensures Inv(SenderMoved(s))
  {
  }

  lemma SenderKeeps(s: State)
    requires Inv(s)
    ensures Inv(SenderMoved(s))
  {
    hide Inv;
    match s.sender
    case Publishing(_) => PublishKeeps(s);
    case Storing(_) => StoreKeeps(s);
    case Dropping(_) => LeaveKeeps(s);
    case Detaching(_) => LeaveKeeps(s);
    case _ =>
  }

  lemma PollKeeps(s: State, nothing: Verdict)
    requires Inv(s) && !s.completed
    requires nothing == if s.receiver.PollingClosed? then SenderLeft else ReceivedNothing
    requires s.receiver.PollingClosed? || s.receiver.Ready?
    ensures Inv(Polled(s, nothing))
  {
    WinnerIsOne(s.winner);
  }

  lemma ArbitrationKeeps(s: State)
    requires Inv(s) && Enabled(s, CloseAndPoll)
    ensures Inv(CloseArbitrated(s))
  {
    WinnerIsOne(s.winner);
  }

  lemma CloseStarts(s: State, pc: ReceiverPc)
    requires Inv(s) && s.receiver.Ready? && (pc.BareClosing? || pc.TakeClosing?)
    ensures Inv(CloseBegun(s, pc))
  {
  }

  lemma WinningCloseKeeps(s: State)
    requires Inv(s) && s.receiver.WinningClose?
    ensures Inv(ReceiverMoved(s))
  {
  }

  lemma BareCloseKeeps(s: State)
    requires Inv(s) && (s.receiver.BareClosing? || s.receiver.TakeClosing?)
    ensures Inv(ReceiverMoved(s))
  {
  }

  lemma TakeKeeps(s: State)
    requires Inv(s) && s.receiver.Taking?
    ensures Inv(Recovered(s))
  {
  }

  lemma DropKeeps(s: State)
    requires Inv(s) && Enabled(s, DropReceiver)
    ensures Inv(ReceiverDropped(s))
  {
  }

  lemma ReceiverKeeps(s: State)
    requires Inv(s) && Enabled(s, ReceiverGoes)
    ensures Inv(ReceiverMoved(s))
  {
    hide Conserved, SenderAgrees, CutOffAgrees, VerdictAgrees, BareClosed, Polled, Recovered;
    match s.receiver
    case WinningClose => WinningCloseKeeps(s);
    case PollingClosed => PollKeeps(s, SenderLeft);
    case BareClosing => BareCloseKeeps(s);
    case TakeClosing => BareCloseKeeps(s);
    case Taking => TakeKeeps(s);
  }

  lemma InvStep(s: State, step: Step)
    requires Inv(s)
    ensures Inv(Next(s, step))
  {
    hide Inv, SendBegun, SenderMoved, Polled, CloseArbitrated, CloseBegun, ReceiverMoved,
      ReceiverDropped;
    if Enabled(s, step) {
      match step
      case Send(_) => SenderStarts(s, step);
      case DropSender => SenderStarts(s, step);
      case SenderGoes => SenderKeeps(s);
      case PollReceive => PollKeeps(s, ReceivedNothing);
      case CloseAndPoll => ArbitrationKeeps(s);
      case Close => CloseStarts(s, BareClosing);
      case CloseAndTake => CloseStarts(s, TakeClosing);
      case ReceiverGoes => ReceiverKeeps(s);
      case DropReceiver => DropKeeps(s);
    }
  }

  lemma {:induction false} InvRun(steps: seq<Step>)
    ensures Inv(After(steps))
  {
    hide Inv, Next;
    if steps == [] {
      InvInitial();
    } else {
      InvRun(steps[..|steps| - 1]);
      InvStep(After(steps[..|steps| - 1]), steps[|steps| - 1]);
    }
  }

  lemma InvInitial()
    ensures Inv(Initial())
  {
  }

  // ----------------------------------------------------------------- theorems

  /** In every interleaving, a value given to `send` is in exactly one place:
      with the sender or back with its caller, in the carrier, received,
      recovered by a close, or destroyed with the receiver. */
  lemma {:induction false} ValueInOnePlace(steps: seq<Step>)
    ensures Conserved(After(steps))
  {
    hide After, Conserved;
    InvRun(steps);
  }

  /** A terminal closing verdict names whoever made the first transition out of
      `Open` exactly when no bare close reached the carrier between send's
      transition and its publication. */
  lemma VerdictNamesWinner(steps: seq<Step>)
    requires After(steps).verdict.Some? && !After(steps).verdict.value.ReceivedNothing?
    ensures After(steps).winner.Some?
    ensures Names(After(steps).verdict.value, After(steps).winner.value) <==> !After(steps).cutOff
  {
    hide After, Conserved;
    InvRun(steps);
    WinnerIsOne(After(steps).winner);
  }

  /** A receiver learns that its sender has gone: one receive then ends with the
      value, exactly when one was published, or with nothing. */
  lemma {:induction false} ReceiverLearns(steps: seq<Step>)
    requires After(steps).sender.Gone? && After(steps).receiver.Ready? && !After(steps).completed
    ensures var s := After(steps);
            var t := Next(s, PollReceive);
            && t.completed && t.verdict.Some?
            && (t.verdict.value.GotValue? <==> s.given.Some? && s.sender == Gone(None))
            && (t.verdict.value.GotValue? ==> t.received == s.given)
            && (!t.verdict.value.GotValue? ==> t.verdict.value.ReceivedNothing? && t.received.None?)
  {
    hide After;
    InvRun(steps);
    WinnerIsOne(After(steps).winner);
  }

  /** A closing receive ends the channel at once, unless a send has won and is
      still about to publish. */
  lemma {:induction false} CloseAndPollAnswers(steps: seq<Step>)
    requires After(steps).receiver.Ready? && !After(steps).completed
    ensures var s := After(steps);
            var t := Next(s, CloseAndPoll);
            var u := if t.receiver.Ready? then t else Next(t, ReceiverGoes);
            && u.receiver.Ready? && u.completed == u.verdict.Some?
            && (u.verdict.None? <==> s.sender.Publishing? && !s.carrier.closed)
            && (s.word.Open? ==> u.word.ReceiverClosed? && u.carrier.closed)
  {
    hide After;
    InvRun(steps);
    WinnerIsOne(After(steps).winner);
  }

  /** Closing to take recovers a value already published, and only that. */
  lemma {:induction false} CloseTakeRecovers(steps: seq<Step>)
    requires After(steps).receiver.Ready?
    ensures var s := After(steps);
            var t := Next(Next(Next(s, CloseAndTake), ReceiverGoes), ReceiverGoes);
            && t.receiver.Ready? && t.completed
            && (if s.attached && s.carrier.value.Some?
                then t.recovered == s.given && t.carrier.value.None?
                else t.recovered == s.recovered)
  {
    hide After;
    InvRun(steps);
  }

  /** A send left to itself publishes its value, unless the channel has been
      closed, and then it hands the value back. */
  lemma {:induction false} SendPublishesOrReturns(steps: seq<Step>, v: Value)
    requires After(steps).sender.Live?
    ensures var s := After(steps);
            var t := Next(Next(Next(s, Send(v)), SenderGoes), SenderGoes);
            && t.sender.Gone? && t.given == Some(v)
            && (if s.word.Open? && !s.carrier.closed
                then t.sender == Gone(None) && t.carrier.value == Some(v) && t.word.Sent?
                else t.sender == Gone(Some(v)) && t.carrier.value.None?)
  {
    hide After;
    InvRun(steps);
  }

  /** A receiver that is done has emptied the carrier, and nothing can still be
      put there. */
  predicate Cleared(s: State) {
    && (s.completed ==> s.carrier.value.None?)
    && (s.completed && (s.sender.Publishing? || (s.sender.Live? && s.word.Open?)) ==> s.carrier.closed)
    && (s.receiver.Taking? && s.attached ==> s.carrier.closed)
  }

  lemma ClearedStep(s: State, step: Step)
    requires SenderAgrees(s) && CutOffAgrees(s) && ReceiverAgrees(s) && Cleared(s)
    ensures Cleared(Next(s, step))
  {
  }

  /** No value is stranded: in every reachable state a receiver that has completed
      or been dropped has left none in the carrier. */
  lemma {:induction false} NothingIsStranded(steps: seq<Step>)
    ensures Cleared(After(steps))
    ensures After(steps).completed || After(steps).receiver.Dropped? ==> After(steps).carrier.value.None?
  {
    hide Next, Conserved, VerdictAgrees, SenderAgrees, CutOffAgrees;
    InvRun(steps);
    if steps != [] {
      NothingIsStranded(steps[..|steps| - 1]);
      InvRun(steps[..|steps| - 1]);
      ClearedStep(After(steps[..|steps| - 1]), steps[|steps| - 1]);
    }
  }

  predicate OnlyReceives(steps: seq<Step>) {
    forall i :: 0 <= i < |steps| ==>
                  !steps[i].Close? && !steps[i].CloseAndTake? && !steps[i].DropReceiver?
  }

  lemma BareStays(s: State, step: Step)
    requires !s.bare && !step.Close? && !step.CloseAndTake? && !step.DropReceiver?
    ensures !Next(s, step).bare
  {
  }

  lemma {:induction false} OnlyReceivesIsNotBare(steps: seq<Step>)
    requires OnlyReceives(steps)
    ensures !After(steps).bare
  {
    hide Next;
    if steps != [] {
      OnlyReceivesIsNotBare(steps[..|steps| - 1]);
      BareStays(After(steps[..|steps| - 1]), steps[|steps| - 1]);
    }
  }

  /** Without bare closes every terminal result of either receive operation
      names the winner, and a value result is the value given to `send`. */
  lemma ReceivesArbitrate(steps: seq<Step>)
    requires OnlyReceives(steps) && After(steps).verdict.Some?
    ensures After(steps).winner.Some?
    ensures Names(After(steps).verdict.value, After(steps).winner.value)
    ensures After(steps).verdict.value.GotValue? ==>
              After(steps).received.Some? && After(steps).received == After(steps).given
  {
    hide After;
    OnlyReceivesIsNotBare(steps);
    InvRun(steps);
    WinnerIsOne(After(steps).winner);
  }

  lemma WinnerStays(s: State, step: Step)
    requires !s.word.Open?
    ensures Next(s, step).winner == s.winner
  {
  }

  /** The first transition is the only one: no later step changes the winner. */
  lemma {:induction false} WinnerIsFinal(steps: seq<Step>, more: seq<Step>)
    requires After(steps).winner.Some?
    ensures After(steps + more).winner == After(steps).winner
  {
    hide Next;
    if more == [] {
      assert steps + more == steps;
    } else {
      var run := steps + more;
      var n := |run| - 1;
      assert run[..n] == steps + more[..|more| - 1];
      WinnerIsFinal(steps, more[..|more| - 1]);
      InvRun(run[..n]);
      WinnerStays(After(run[..n]), run[n]);
    }
  }

  lemma AfterMore(steps: seq<Step>, step: Step)
    ensures After(steps + [step]) == Next(After(steps), step)
  {
    assert (steps + [step])[..|steps|] == steps;
  }

  lemma AfterNone()
    ensures After([]) == Initial()
  {
  }

  function CutOffRun(): seq<Step> {
    [] + [Send(7)] + [Close] + [ReceiverGoes] + [SenderGoes] + [SenderGoes] + [CloseAndPoll]
  }

  lemma CutOffReached()
    ensures var s := After([] + [Send(7)] + [Close] + [ReceiverGoes]);
            && s.winner == Some(SendWon) && s.sender == Publishing(7) && s.carrier.closed
            && s.receiver.Ready? && !s.completed
  {
    hide After;
    AfterNone();
    AfterMore([], Send(7));
    AfterMore([] + [Send(7)], Close);
    AfterMore([] + [Send(7)] + [Close], ReceiverGoes);
  }

  /** The excepted case can be reached: a bare close inside the sending window
      ends in an empty verdict although send won. */
  lemma BareCloseMisnames()
    ensures var s := After(CutOffRun());
            && s.winner == Some(SendWon) && s.verdict == Some(ClosedEmpty)
            && s.sender == Gone(Some(7))
  {
    hide After;
    CutOffReached();
    var s3 := [] + [Send(7)] + [Close] + [ReceiverGoes];
    AfterMore(s3, SenderGoes);
    AfterMore(s3 + [SenderGoes], SenderGoes);
    AfterMore(s3 + [SenderGoes] + [SenderGoes], CloseAndPoll);
  }
}
